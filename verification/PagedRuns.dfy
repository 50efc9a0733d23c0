/** Over every run, paging looks like one flat memory for each address space. */
module PagedRuns {
  import opened Options
  import opened Bytes
  import opened Paging
  import opened FlatMemory
  import opened Misses
  import opened Accesses
  import opened AddressSpaces

  /** One user access (which may fault instead), a context switch, or an address-space operation.
      `policy` and `junk` settle what the source leaves open at a fault. */
  datatype Action =
    | Read(va: nat, size: int, policy: Policy, junk: Page)
    | Write(va: nat, size: int, value: int, policy: Policy, junk: Page)
    | Switch(to: int)
    | Create(id: int, exec: seq<Byte>, own: nat, start: nat)
    | Fork(offsets: seq<int>)
    | Exit(vpns: seq<int>)
    | Remove(space: int, how: Eraser)

  /** How the access itself ends. */
  function Tried(s: Pager, a: Action): Outcome
    requires Shape(s) && (a.Read? || a.Write?) && a.size in {1, 2, 4}
  {
    if a.Read? then ReadMem(s, a.va, a.size).1 else WriteMem(s, a.va, a.size, a.value).1
  }

  /** The state after an action; None when the machine halts for want of swap space. */
  function Next(s: Pager, a: Action): Option<Pager>
    requires Shape(s) && Sensible(s, a)
  {
    match a
    case Read(va, size, policy, junk) =>
      if ReadMem(s, va, size).1.PageFault? then HandleTLBMiss(s, va / PAGE_SIZE, policy, junk) else Some(ReadMem(s, va, size).0)
    case Write(va, size, value, policy, junk) =>
      if WriteMem(s, va, size, value).1.PageFault? then HandleTLBMiss(s, va / PAGE_SIZE, policy, junk) else Some(WriteMem(s, va, size, value).0)
    case Switch(to) => Some(Flush(s).(current := to))
    case Create(id, exec, own, start) => Some(s.(spaces := s.spaces[id := NewSpace(exec, own, start)]))
    case Fork(offsets) => Some(s.(spaces := s.spaces[s.current := Grow(s.spaces[s.current], offsets)]))
    case Exit(vpns) => Some(Flush(ExitLoop(s, vpns)))
    case Remove(space, how) => Some(Destroy(s, space, how))
  }

  /** Programs touch their own pages only; the other operations name what exists. */
  predicate Sensible(s: Pager, a: Action) {
    match a
    case Read(va, size, policy, _) => size in {1, 2, 4} && InRange(policy) && (va % size == 0 ==> Touchable(s, va / PAGE_SIZE))
    case Write(va, size, _, policy, _) => size in {1, 2, 4} && InRange(policy) && (va % size == 0 ==> Touchable(s, va / PAGE_SIZE))
    case Switch(to) => to in s.spaces
    case Create(id, _, _, _) => id !in s.spaces
    case Fork(offsets) => s.current in s.spaces && |offsets| == STACK_PAGES
    case Exit(vpns) => |vpns| == STACK_PAGES && forall k :: 0 <= k < |vpns| ==> HasPage(s, s.current, vpns[k])
    case Remove(space, _) => space in s.spaces
  }

  /** What the action does to the flat memory: nothing but writes and the coming and going of pages. */
  function NextFlat(s: Pager, flat: Flat, a: Action): Flat
    requires Shape(s) && Sensible(s, a) && SameShape(s, flat)
  {
    match a
    case Write(va, size, value, _, _) =>
      if WriteMem(s, va, size, value).1.Done? then
        InsidePage(va, size);
        Written(flat, s.current, va, BytesOf(value, size))
      else flat
    case Create(id, exec, own, start) => flat[id := NewPages(exec, own, start)]
    case Fork(_) => flat[s.current := flat[s.current] + StackPages(s.spaces[s.current])]
    case Remove(space, _) => flat - {space}
    case Read(_, _, _, _) => flat
    case Switch(_) => flat
    case Exit(_) => flat
  }

  lemma AccessFault(s: Pager, flat: Flat, a: Action)
    requires Ok(s, flat) && Sensible(s, a) && (a.Read? || a.Write?) && Tried(s, a).PageFault? && Next(s, a).Some?
    ensures Served(s, Next(s, a).value, flat, a.va / PAGE_SIZE)
  {
    hide Ok, HandleTLBMiss, Touchable, Served;
    MissServes(s, flat, a.va / PAGE_SIZE, a.policy, a.junk);
  }

  lemma NoBusError(s: Pager, va: nat, size: int, writing: bool)
    requires Shape(s) && size in {1, 2, 4}
    ensures !Translate(s, va, size, writing).1.BusError?
  {
  }

  lemma AccessKeeps(s: Pager, flat: Flat, a: Action)
    requires Ok(s, flat) && Sensible(s, a) && (a.Read? || a.Write?) && Next(s, a).Some?
    ensures Ok(Next(s, a).value, NextFlat(s, flat, a))
  {
    hide Ok, HandleTLBMiss, Touchable, Written;
    OkShape(s, flat);
    if Tried(s, a).PageFault? {
      AccessFault(s, flat, a);
    } else if Tried(s, a).Done? {
      if a.Read? { ReadSees(s, flat, a.va, a.size); } else { WriteKeeps(s, flat, a.va, a.size, a.value); }
    } else {
      NoBusError(s, a.va, a.size, a.Write?);
    }
  }

  lemma SwitchKeeps(s: Pager, flat: Flat, to: int)
    requires Ok(s, flat)
    ensures Shape(s) && Ok(Flush(s).(current := to), flat)
  {
    hide Agrees, Untouched, Fits, SlotsOk;
    FlushKeeps(s, flat);
    var u := Flush(s);
    var t := u.(current := to);
    FitsAll(u, t, flat);
    SlotsSame(u, t);
  }

  /** Every action keeps the invariant, against the flat memory after the action. */
  lemma StepKeeps(s: Pager, flat: Flat, a: Action)
    requires Ok(s, flat) && Shape(s) && SameShape(s, flat) && Sensible(s, a) && Next(s, a).Some?
    ensures Ok(Next(s, a).value, NextFlat(s, flat, a))
  {
    hide Ok, HandleTLBMiss, Touchable, Written, ReadMem, WriteMem, Flush, Destroy, ExitLoop, NewPages, StackPages, NewSpace, Grow;
    match a
    case Read(_, _, _, _) => AccessKeeps(s, flat, a);
    case Write(_, _, _, _, _) => AccessKeeps(s, flat, a);
    case Switch(to) => SwitchKeeps(s, flat, to);
    case Create(id, exec, own, start) => CreateKeeps(s, flat, id, exec, own, start);
    case Fork(offsets) => ForkKeeps(s, flat, s.current, offsets);
    case Exit(vpns) => ExitKeeps(s, flat, vpns);
    case Remove(space, how) => DestroyKeeps(s, flat, space, how);
  }

  /** The machine at boot: every inverted page table entry invalid, no address space. */
  ghost predicate Boot(s: Pager) {
    && Shape(s) && s.spaces == map[] && s.fifo == []
    && (forall p :: 0 <= p < FRAMES ==> !s.ipt[p].valid && !s.used[p])
    && (forall i :: 0 <= i < SWAP_PAGES ==> !s.slots[i])
    && (forall j :: 0 <= j < TLB_SIZE ==> !s.tlb[j].valid)
  }

  lemma BootOk(s: Pager)
    requires Boot(s)
    ensures Ok(s, map[])
  {
  }
}
