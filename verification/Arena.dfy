/**
  The kernel arena as a transition system: any number of threads inside sa_alloc, sa_fork, sa_free,
  vma_free and alloc_destroy, interleaved at every lock, list, table and reference-count access.
 */
module Arena {
  import opened Words
  import opened PageTables
  import opened RangeWalks
  import opened PageMapping
  import opened Wrappers

  const SS_START: Word := 0xffff_eb00_0000_0000
  const SS_END: Word := 0xffff_fc00_0000_0000
  const SS_SIZE: nat := 0x80_0000
  const THREADS_LIMIT: nat := (SS_END - SS_START) / SS_SIZE
  const PAGES: nat := SS_SIZE / PAGE_SIZE
  const GL_SA_CAPACITY: nat := 128

  /** An entry of an allocator's slot table. Who reserved it is bookkeeping: no step looks at it. */
  datatype Slot =
    | Reserved(taker: nat)                      // xa_alloc with a NULL entry
    | Pending(tid: nat, list: nat, desc: nat)   // inserted by sa_fork, not mapped yet
    | Live(tid: nat, list: nat, desc: nat)      // granted to a thread

  datatype Allocator = Allocator(tgid: nat, mm: nat, kref: nat, slots: map<nat, Slot>)

  datatype Call = SaAlloc | SaFork(parentTgid: nat, parentPid: nat) | SaFree | VmaFree | AllocDestroy

  /** Where a call is: the access it makes next. */
  datatype Pc =
    | GetRef                                                    // alloc_get, the allocator having been looked up
    | PickId | FindParent | NewThread
    | TakeLock | Unlinking | NewPages                           // gl_alloc_stack
    | Scan(from: nat) | Examine(at: nat, seen: nat, list: nat)  // xa_for_each in sa_fork: the descriptor seen, and its pagelist
    | Copying(source: nat, seen: nat, list: nat, copied: nat) | Insert
    | MapWindow | Publish
    | EraseLive                                                 // sa_free
    | CheckSize | Clearing(cleared: nat) | AddLock | Linking    // gl_free
    | FreeThread | EraseSlot | PutRef
    | FreeAlloc                                                 // alloc_destroy_callback
    | Splice | Emptying | FreeRest                              // vma_free

  /**
    A call in progress: its allocator, slot, thread descriptor, parent allocator and page list,
    each meaningful at the points where HoldsRef, HoldsSlot, HoldsDesc, UsesParent and HoldsList
    say so.
   */
  datatype Op = Op(call: Call, pc: Pc, h: nat, id: nat, desc: nat, parent: nat, held: nat, spliced: seq<nat>)

  datatype State = State(
    registry: map<nat, nat>,        // sa_allocators: thread group to allocator
    allocs: map<nat, Allocator>,    // allocators not yet freed
    spaces: map<nat, seq<Entry>>,   // page tables of each mm
    threads: map<nat, nat>,         // sa_thread_desc structures not yet freed, with their tid
    lists: map<nat, seq<nat>>,      // sa_pagelist structures not yet freed
    content: map<nat, nat>,         // pages obtained and not returned; content 0 is all zeroes
    free: seq<nat>,                 // gl_sa
    size: int,                      // gl_size
    lock: Option<nat>,              // gl_lock
    ops: map<nat, Op>)              // threads inside a call

  /** What the environment decides at a step: success of an allocation, a number, pages, tables. */
  datatype Choice = Choice(ok: bool, n: nat, pages: seq<nat>, table: seq<Entry>)

  datatype Action =
    | Create(tgid: nat, handle: nat, mm: nat, tables: seq<Entry>)
    | Alloc(caller: nat, group: nat)
    | Fork(forked: nat, child: nat, parentTgid: nat, parentPid: nat)
    | Free(freer: nat, owner: nat, addr: Word)
    | Destroy(destroyer: nat, unregistered: nat)
    | FreeAll(t0: nat)
    | Advance(t: nat, c: Choice)
    | Store(space: nat, slot: nat, va: nat, byte: nat)

  // ---------------------------------------------------------------- slots and addresses

  function IdToAddr(id: nat): nat {
    SS_START + id * SS_SIZE
  }

  function AddrToId(addr: nat): nat
    requires addr >= SS_START
  {
    (addr - SS_START) / SS_SIZE
  }

  /** The checks of sa_free. */
  predicate ValidAddress(addr: nat) {
    SS_START <= addr < SS_END && (addr - SS_START) % SS_SIZE == 0
  }

  /** Exactly the addresses of the slots below the limit pass, and the two conversions are inverse on them. */
  lemma AddressesAreSlots(addr: nat, id: nat)
    ensures ValidAddress(addr) <==> addr >= SS_START && AddrToId(addr) < THREADS_LIMIT && addr == IdToAddr(AddrToId(addr))
    ensures AddrToId(IdToAddr(id)) == id
    ensures ValidAddress(IdToAddr(id)) <==> id < THREADS_LIMIT
  {
  }

  predicate InWindow(id: nat, va: nat) {
    IdToAddr(id) <= va < IdToAddr(id) + SS_SIZE
  }

  /** Windows are disjoint, inside the upper canonical half, and made of whole pages. */
  lemma WindowsApart(id: nat, other: nat, va: nat)
    requires InWindow(id, va)
    ensures InWindow(other, va) <==> id == other
    ensures id <= THREADS_LIMIT ==> CanonicalRange(IdToAddr(id), IdToAddr(id) + SS_SIZE) && IdToAddr(id) + SS_SIZE < WORD && Canonical(va)
    ensures Aligned(IdToAddr(id)) && Aligned(IdToAddr(id) + SS_SIZE)
  {
  }

  // ---------------------------------------------------------------- what a call holds

  predicate HoldsSlot(o: Op) {
    match o.call
    case SaAlloc => o.pc != GetRef && o.pc != PickId && o.pc != PutRef && o.pc != FreeAlloc
    case SaFork(_, _) => o.pc == MapWindow || o.pc == Publish || o.pc == EraseSlot
    case _ => false
  }

  predicate HoldsRef(o: Op) {
    match o.call
    case SaFree => o.pc != EraseLive && o.pc != FreeAlloc
    case VmaFree => false
    case _ => o.pc != GetRef && o.pc != FreeAlloc
  }

  predicate InGlFree(pc: Pc) {
    pc == CheckSize || pc.Clearing? || pc == AddLock || pc == Linking
  }

  /** Inside xa_for_each: al_lock of the parent is held for reading. */
  predicate Reading(pc: Pc) {
    pc.Scan? || pc.Examine? || pc.Copying?
  }

  predicate HoldsList(o: Op) {
    || Reading(o.pc) || o.pc == Insert || o.pc == MapWindow || o.pc == Publish
    || InGlFree(o.pc) || (o.pc == EraseSlot && o.call.SaFork?)
  }

  predicate HoldsDesc(o: Op) {
    HoldsList(o) || o.pc == TakeLock || o.pc == Unlinking || o.pc == NewPages || o.pc == FreeThread
  }

  predicate UsesParent(o: Op) {
    o.call.SaFork? && (o.pc == NewThread || o.pc == TakeLock || o.pc == Unlinking || o.pc == NewPages || Reading(o.pc))
  }

  /** The points a call can be at. */
  predicate Shape(o: Op) {
    match o.call
    case SaAlloc =>
      || o.pc == GetRef || o.pc == PickId || o.pc == NewThread || o.pc == TakeLock || o.pc == Unlinking || o.pc == NewPages
      || o.pc == MapWindow || o.pc == Publish || InGlFree(o.pc) || o.pc == FreeThread || o.pc == EraseSlot
      || o.pc == PutRef || o.pc == FreeAlloc
    case SaFork(_, _) =>
      || o.pc == GetRef || o.pc == FindParent || o.pc == NewThread || o.pc == TakeLock || o.pc == Unlinking || o.pc == NewPages
      || Reading(o.pc) || o.pc == Insert
      || o.pc == MapWindow || o.pc == Publish || InGlFree(o.pc) || o.pc == FreeThread || o.pc == EraseSlot
      || o.pc == PutRef || o.pc == FreeAlloc
    case SaFree => o.pc == EraseLive || InGlFree(o.pc) || o.pc == FreeThread || o.pc == PutRef || o.pc == FreeAlloc
    case VmaFree => o.pc == Splice || o.pc == Emptying || o.pc == FreeRest
    case AllocDestroy => o.pc == PutRef || o.pc == FreeAlloc
  }

  // ---------------------------------------------------------------- the steps

  /** What one step does to the shared state. */
  datatype Change =
    | Nothing
    | SetSlot(at: nat, slot: Slot)
    | ClearSlot(gone: nat)
    | AddRef
    | DropRef
    | FreeAllocator
    | NewDesc(born: nat, owner: nat)
    | DropDesc(dead: nat)
    | SetTables(table: seq<Entry>)
    | NewList(made: nat, pages: seq<nat>)                        // pages come from the page allocator, zeroed
    | DropList(dropped: nat)                                     // sa_pagelist_free: they go back to it
    | WritePage(page: nat, value: nat)
    | SetFree(free: seq<nat>, size: int, lock: Option<nat>)

  /** Where a call goes on once it has a stack. */
  function AfterStack(call: Call): Pc {
    if call.SaFork? then Scan(0) else MapWindow
  }

  /** Where it goes on undoing once it has no thread descriptor. */
  function AfterThread(call: Call): Pc {
    if call.SaAlloc? then EraseSlot else PutRef
  }

  /** The next entry xa_for_each comes to; NULL entries are skipped. */
  predicate EntryFrom(slots: map<nat, Slot>, from: nat, id: nat) {
    id in slots && from <= id && !slots[id].Reserved? && forall j :: j in slots && from <= j < id ==> slots[j].Reserved?
  }

  predicate NoneFrom(slots: map<nat, Slot>, from: nat) {
    forall j :: j in slots && from <= j ==> slots[j].Reserved?
  }

  ghost predicate Mapped(now: seq<Entry>, was: seq<Entry>, id: nat, pages: seq<nat>, ok: bool)
    requires IsTable(was, PGD)
  {
    && IsTable(now, PGD)
    && if ok then TranslatesTo(now, was, IdToAddr(id), IdToAddr(id) + SS_SIZE, Frames(IdToAddr(id), pages))
       else PartlyTranslatesTo(now, was, IdToAddr(id), IdToAddr(id) + SS_SIZE, Frames(IdToAddr(id), pages))
  }

  /** A page list not freed, none of its pages returned. */
  predicate Present(s: State, l: nat) {
    l in s.lists && |s.lists[l]| == PAGES && forall k :: 0 <= k < PAGES ==> s.lists[l][k] in s.content
  }

  /** Everything the next step of thread t dereferences is still there. */
  predicate Safe(s: State, t: nat)
    requires t in s.ops
  {
    var o := s.ops[t];
    match o.pc
    case GetRef | PickId | Insert | Publish | EraseSlot => o.h in s.allocs
    case Unlinking => s.free != []
    case Scan(_) => o.call.SaFork? && o.parent in s.allocs
    case Examine(_, d, _) => o.call.SaFork? && o.parent in s.allocs && d in s.threads
    case Copying(_, d, l, _) => o.parent in s.allocs && d in s.threads && Present(s, l) && Present(s, o.held)
    case MapWindow =>
      && o.h in s.allocs && s.allocs[o.h].mm in s.spaces && IsTable(s.spaces[s.allocs[o.h].mm], PGD) && Present(s, o.held)
    case EraseLive => o.h in s.allocs && o.id in s.allocs[o.h].slots && s.allocs[o.h].slots[o.id].Live?
    case CheckSize | Clearing(_) => Present(s, o.held)
    case FreeThread => o.desc in s.threads
    case PutRef => o.h in s.allocs && s.allocs[o.h].kref > 0
    case FreeAlloc => o.h in s.allocs
    case FreeRest => o.spliced != [] ==> Present(s, o.spliced[0])
    case _ => true
  }

  /** What the environment may choose for the next step of thread t: locks and oracles. */
  ghost predicate Possible(s: State, t: nat, c: Choice)
    requires t in s.ops && Safe(s, t)
  {
    var o := s.ops[t];
    match o.pc
    case PickId => c.ok ==> c.n <= THREADS_LIMIT && c.n !in s.allocs[o.h].slots
    case TakeLock | AddLock | Splice => s.lock.None?
    case NewPages =>
      c.ok ==> c.n !in s.lists && |c.pages| == PAGES && Distinct(c.pages) && forall p :: p in c.pages ==> p !in s.content
    case NewThread => c.ok ==> c.n !in s.threads
    case Scan(from) => if c.ok then EntryFrom(s.allocs[o.parent].slots, from, c.n) else NoneFrom(s.allocs[o.parent].slots, from)
    case Insert => c.ok ==> o.id !in s.allocs[o.h].slots
    case MapWindow => Mapped(c.table, s.spaces[s.allocs[o.h].mm], o.id, s.lists[o.held], c.ok)
    case EraseLive => forall r :: r in s.ops && Reading(s.ops[r].pc) ==> s.ops[r].parent != o.h    // al_lock
    case _ => true
  }

  ghost predicate CanAdvance(s: State, t: nat, c: Choice) {
    t in s.ops && Safe(s, t) && Possible(s, t, c)
  }

  /** The change the next step of thread t makes. */
  function ChangeOf(s: State, t: nat, c: Choice): Change
    requires t in s.ops && Safe(s, t)
  {
    var o := s.ops[t];
    match o.pc
    case GetRef => if s.allocs[o.h].kref > 0 then AddRef else Nothing
    case PickId => if c.ok then SetSlot(c.n, Reserved(t)) else Nothing
    case NewThread => if c.ok then NewDesc(c.n, t) else Nothing
    case TakeLock => if s.free == [] then Nothing else SetFree(s.free, s.size - 1, Some(t))
    case Unlinking => SetFree(s.free[1..], s.size, None)
    case NewPages => if c.ok then NewList(c.n, c.pages) else Nothing
    case Copying(_, _, l, k) => if k < PAGES then WritePage(s.lists[o.held][k], s.content[s.lists[l][k]]) else Nothing
    case Insert => if c.ok then SetSlot(o.id, Pending(t, o.held, o.desc)) else Nothing
    case MapWindow => SetTables(c.table)
    case Publish => SetSlot(o.id, Live(t, o.held, o.desc))
    case EraseLive => ClearSlot(o.id)
    case CheckSize => if s.size >= GL_SA_CAPACITY then DropList(o.held) else Nothing
    case Clearing(k) => if k < PAGES then WritePage(s.lists[o.held][k], 0) else Nothing
    case AddLock => SetFree(s.free, s.size + 1, Some(t))
    case Linking => SetFree([o.held] + s.free, s.size, None)
    case EraseSlot => ClearSlot(o.id)
    case FreeThread => DropDesc(o.desc)
    case PutRef => DropRef
    case FreeAlloc => FreeAllocator
    case Splice => SetFree([], s.size, Some(t))
    case Emptying => SetFree(s.free, 0, None)
    case FreeRest => if o.spliced == [] then Nothing else DropList(o.spliced[0])
    case _ => Nothing
  }

  /** The point the call of thread t is at after its next step; None when it has returned. */
  function PcAfter(s: State, t: nat, c: Choice): Option<Pc>
    requires t in s.ops && Safe(s, t)
  {
    var o := s.ops[t];
    match o.pc
    case GetRef => if s.allocs[o.h].kref > 0 then Some(if o.call.SaFork? then FindParent else PickId) else None
    case PickId => Some(if c.ok then NewThread else PutRef)
    case FindParent => Some(if FindsParent(s, o) then NewThread else PutRef)
    case NewThread => Some(if c.ok then TakeLock else AfterThread(o.call))
    case TakeLock => Some(if s.free == [] then NewPages else Unlinking)
    case Unlinking => Some(AfterStack(o.call))
    case NewPages => Some(if c.ok then AfterStack(o.call) else FreeThread)
    case Scan(_) =>
      var slots := s.allocs[o.parent].slots;
      Some(if c.ok && c.n in slots && !slots[c.n].Reserved? then Examine(c.n, slots[c.n].desc, slots[c.n].list) else CheckSize)
    case Examine(at, d, l) => Some(if s.threads[d] == o.call.parentPid then Copying(at, d, l, 0) else Scan(at + 1))
    case Copying(source, d, l, k) => Some(if k < PAGES then Copying(source, d, l, k + 1) else Insert)
    case Insert => Some(if c.ok then MapWindow else CheckSize)
    case MapWindow => Some(if c.ok then Publish else if o.call.SaFork? then EraseSlot else CheckSize)
    case Publish => None
    case EraseLive => Some(CheckSize)
    case CheckSize => Some(if s.size >= GL_SA_CAPACITY then FreeThread else Clearing(0))
    case Clearing(k) => Some(if k < PAGES then Clearing(k + 1) else AddLock)
    case AddLock => Some(Linking)
    case Linking => Some(FreeThread)
    case FreeThread => Some(AfterThread(o.call))
    case EraseSlot => Some(if o.call.SaFork? then CheckSize else PutRef)
    case PutRef => if s.allocs[o.h].kref == 1 then Some(FreeAlloc) else None
    case FreeAlloc => None
    case Splice => Some(Emptying)
    case Emptying => Some(FreeRest)
    case FreeRest => if o.spliced == [] then None else Some(FreeRest)
  }

  predicate FindsParent(s: State, o: Op) {
    o.call.SaFork? && o.call.parentTgid in s.registry
  }

  /** The same call at its next point, with what it has picked up on the way. */
  function Onward(s: State, t: nat, c: Choice, pc: Pc): Op
    requires t in s.ops && Safe(s, t)
  {
    var o := s.ops[t];
    Op(o.call, pc, o.h,
       if o.pc == PickId && c.ok then c.n else if o.pc.Copying? && o.pc.copied >= PAGES then o.pc.source else o.id,
       if o.pc == NewThread && c.ok then c.n else if o.pc == EraseLive then s.allocs[o.h].slots[o.id].desc else o.desc,
       if o.pc == FindParent && FindsParent(s, o) then s.registry[o.call.parentTgid] else o.parent,
       HeldAfter(s, t, c), SplicedAfter(s, t))
  }

  function HeldAfter(s: State, t: nat, c: Choice): nat
    requires t in s.ops && Safe(s, t)
  {
    var o := s.ops[t];
    match o.pc
    case Unlinking => s.free[0]
    case NewPages => if c.ok then c.n else o.held
    case EraseLive => s.allocs[o.h].slots[o.id].list
    case _ => o.held
  }

  function SplicedAfter(s: State, t: nat): seq<nat>
    requires t in s.ops
  {
    var o := s.ops[t];
    if o.pc == Splice then s.free else if o.pc == FreeRest && o.spliced != [] then o.spliced[1..] else o.spliced
  }

  /** The call of thread t after its next step; None when it has returned. */
  function After(s: State, t: nat, c: Choice): Option<Op>
    requires t in s.ops && Safe(s, t)
  {
    match PcAfter(s, t, c)
    case None => None
    case Some(pc) => Some(Onward(s, t, c, pc))
  }

  /** The fields of the call after a step. */
  lemma AfterIs(s: State, t: nat, c: Choice)
    requires t in s.ops && Safe(s, t)
    ensures After(s, t, c).Some? <==> PcAfter(s, t, c).Some?
    ensures var o, a := s.ops[t], After(s, t, c); a.Some? ==>
      && a.value.pc == PcAfter(s, t, c).value && a.value.call == o.call && a.value.h == o.h
      && (a.value.id == o.id || o.pc == PickId || o.pc.Copying?) && (a.value.parent == o.parent || o.pc == FindParent)
      && (a.value.desc == o.desc || (o.pc == NewThread && c.ok && a.value.desc == c.n) || o.pc == EraseLive)
      && a.value.held == HeldAfter(s, t, c) && a.value.spliced == SplicedAfter(s, t)
  {
    hide PcAfter, HeldAfter, SplicedAfter, FindsParent;
  }

  function WithSlots(a: Allocator, slots: map<nat, Slot>): Allocator {
    a.(slots := slots)
  }

  predicate Applies(s: State, h: nat, x: Change) {
    && (x.SetSlot? || x.ClearSlot? || x.AddRef? || x.DropRef? || x.FreeAllocator? || x.SetTables? ==> h in s.allocs)
    && (x.DropRef? ==> s.allocs[h].kref > 0)
    && (x.DropList? ==> x.dropped in s.lists)
  }

  /** A change made by a call on allocator h. */
  function Changed(s: State, h: nat, x: Change): (r: State)
    requires Applies(s, h, x)
    ensures r.ops == s.ops && r.registry == s.registry
  {
    match x
    case Nothing => s
    case SetSlot(id, slot) => s.(allocs := s.allocs[h := WithSlots(s.allocs[h], s.allocs[h].slots[id := slot])])
    case ClearSlot(id) => s.(allocs := s.allocs[h := WithSlots(s.allocs[h], s.allocs[h].slots - {id})])
    case AddRef => s.(allocs := s.allocs[h := s.allocs[h].(kref := s.allocs[h].kref + 1)])
    case DropRef => s.(allocs := s.allocs[h := s.allocs[h].(kref := s.allocs[h].kref - 1)])
    case FreeAllocator => s.(allocs := s.allocs - {h})
    case NewDesc(d, tid) => s.(threads := s.threads[d := tid])
    case DropDesc(d) => s.(threads := s.threads - {d})
    case SetTables(table) => s.(spaces := s.spaces[s.allocs[h].mm := table])
    case NewList(l, pages) => s.(lists := s.lists[l := pages], content := s.content + map p | p in pages :: 0)
    case DropList(l) => s.(lists := s.lists - {l}, content := s.content - (set p | p in s.lists[l]))
    case WritePage(p, v) => s.(content := s.content[p := v])
    case SetFree(free, size, lock) => s.(free := free, size := size, lock := lock)
  }

  function Called(s: State, t: nat, o: Option<Op>): State {
    s.(ops := if o.Some? then s.ops[t := o.value] else s.ops - {t})
  }

  lemma ChangeApplies(s: State, t: nat, c: Choice)
    requires t in s.ops && Safe(s, t)
    ensures Applies(s, s.ops[t].h, ChangeOf(s, t, c))
  {
  }

  function Advanced(s: State, t: nat, c: Choice): State
    requires t in s.ops && Safe(s, t)
  {
    ChangeApplies(s, t, c);
    Called(Changed(s, s.ops[t].h, ChangeOf(s, t, c)), t, After(s, t, c))
  }

  /** What a change leaves alone. */
  lemma ChangedRest(s: State, h: nat, x: Change)
    requires Applies(s, h, x)
    ensures var s' := Changed(s, h, x);
      && (if x.SetFree? then s'.free == x.free && s'.size == x.size && s'.lock == x.lock
          else s'.free == s.free && s'.size == s.size && s'.lock == s.lock)
      && (!x.NewList? && !x.DropList? ==> s'.lists == s.lists)
      && (x.NewList? ==> s'.lists == s.lists[x.made := x.pages]) && (x.DropList? ==> s'.lists == s.lists - {x.dropped})
      && (!x.SetSlot? && !x.ClearSlot? && !x.AddRef? && !x.DropRef? && !x.FreeAllocator? ==> s'.allocs == s.allocs)
      && (x.SetSlot? ==> s'.allocs == s.allocs[h := WithSlots(s.allocs[h], s.allocs[h].slots[x.at := x.slot])])
      && (x.ClearSlot? ==> s'.allocs == s.allocs[h := WithSlots(s.allocs[h], s.allocs[h].slots - {x.gone})])
      && (if x.NewDesc? then s'.threads == s.threads[x.born := x.owner]
          else if x.DropDesc? then s'.threads == s.threads - {x.dead} else s'.threads == s.threads)
  {
  }

  /** A step is the change, and the call's move. */
  lemma AdvancedIs(s: State, t: nat, c: Choice)
    requires t in s.ops && Safe(s, t)
    ensures Applies(s, s.ops[t].h, ChangeOf(s, t, c))
    ensures var s', d := Changed(s, s.ops[t].h, ChangeOf(s, t, c)), Advanced(s, t, c);
      && d == Called(s', t, After(s, t, c)) && d.ops == Called(s, t, After(s, t, c)).ops
      && d.registry == s.registry && d.allocs == s'.allocs && d.spaces == s'.spaces && d.threads == s'.threads
      && d.lists == s'.lists && d.content == s'.content && d.free == s'.free && d.size == s'.size && d.lock == s'.lock
  {
    ChangeApplies(s, t, c);
    hide Safe, ChangeOf, After, Changed;
  }

  /**
    Guards of the environment: an allocator is created for a new address space, a caller frees only
    a slot granted to it and only once, and user stores go through live slots. Calls rejected at
    once change nothing and are not listed.
   */
  ghost predicate Enabled(s: State, a: Action) {
    match a
    case Create(tgid, h, mm, table) =>
      tgid !in s.registry && h !in s.allocs && IsTable(table, PGD) && forall x :: x in s.allocs ==> s.allocs[x].mm != mm
    case Alloc(t, tgid) => t !in s.ops && tgid in s.registry
    case Fork(t, tgid, _, _) => t !in s.ops && tgid in s.registry
    case Free(t, tgid, addr) =>
      t !in s.ops && tgid in s.registry && s.registry[tgid] in s.allocs && ValidAddress(addr)
      && var h, id := s.registry[tgid], AddrToId(addr);
         id in s.allocs[h].slots && s.allocs[h].slots[id].Live?
         && forall r :: r in s.ops && s.ops[r].pc == EraseLive ==> s.ops[r].h != h || s.ops[r].id != id
    case Destroy(t, h) =>
      t !in s.ops && h in s.allocs && s.allocs[h].tgid in s.registry && s.registry[s.allocs[h].tgid] == h
    case FreeAll(t) => t !in s.ops
    case Advance(t, c) => CanAdvance(s, t, c)
    case Store(h, id, va, _) =>
      h in s.allocs && id in s.allocs[h].slots && s.allocs[h].slots[id].Live? && InWindow(id, va)
      && s.allocs[h].mm in s.spaces && IsTable(s.spaces[s.allocs[h].mm], PGD)
  }

  function Fresh(call: Call, pc: Pc, h: nat, id: nat): Op {
    Op(call, pc, h, id, 0, 0, 0, [])
  }

  ghost function Next(s: State, a: Action): State
    requires Enabled(s, a)
  {
    match a
    case Create(tgid, h, mm, table) =>
      s.(registry := s.registry[tgid := h], allocs := s.allocs[h := Allocator(tgid, mm, 1, map[])], spaces := s.spaces[mm := table])
    case Alloc(t, tgid) => Called(s, t, Some(Fresh(SaAlloc, GetRef, s.registry[tgid], 0)))
    case Fork(t, tgid, ptgid, ppid) => Called(s, t, Some(Fresh(SaFork(ptgid, ppid), GetRef, s.registry[tgid], 0)))
    case Free(t, tgid, addr) => Called(s, t, Some(Fresh(SaFree, EraseLive, s.registry[tgid], AddrToId(addr))))
    case Destroy(t, h) => Called(s, t, Some(Fresh(AllocDestroy, PutRef, h, 0))).(registry := s.registry - {s.allocs[h].tgid})
    case FreeAll(t) => Called(s, t, Some(Fresh(VmaFree, Splice, 0, 0)))
    case Advance(t, c) => Advanced(s, t, c)
    case Store(h, id, va, value) =>
      match Walk(s.spaces[s.allocs[h].mm], PGD, va)
      case None => s
      case Some(page) => s.(content := s.content[page := value])
  }

  ghost predicate CanRun(s: State, actions: seq<Action>)
    decreases |actions|
  {
    actions == [] || (Enabled(s, actions[0]) && CanRun(Next(s, actions[0]), actions[1..]))
  }

  ghost function Run(s: State, actions: seq<Action>): State
    requires CanRun(s, actions)
    decreases |actions|
  {
    if actions == [] then s else Run(Next(s, actions[0]), actions[1..])
  }

  /** The module just loaded. */
  function Initial(): State {
    State(map[], map[], map[], map[], map[], map[], [], 0, None, map[])
  }
}
