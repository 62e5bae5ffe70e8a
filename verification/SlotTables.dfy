/** Dispatch slots in `ClassSchema.of`: each event, predicate and function has
    a slot, and an override keeps the slot of what it overrides. */
module SlotTables {
  import opened HashHeap

  datatype Role = Event | Predicate | Function | Process | OnStart | OnEnd | Plain

  predicate HasSlot(role: Role) { role == Event || role == Predicate || role == Function }

  /** A method in a class's own dictionary; `body` tells bodies apart. */
  datatype Method = Method(name: string, role: Role, body: nat)

  type Class = seq<Method>

  datatype Slot = Slot(name: string, role: Role)

  /** Two declarations of one name, of which the later changes the role of
      the earlier, which has a slot. */
  predicate Clash(earlier: Method, later: Method) {
    earlier.name == later.name && HasSlot(earlier.role) && later.role != earlier.role
  }

  // ---- The slots of a class, given its bases first ----

  function RoleOf(slots: seq<Slot>, name: string): (r: Option<Role>)
    ensures r.Some? <==> exists i :: 0 <= i < |slots| && slots[i].name == name
  {
    if slots == [] then None
    else if slots[0].name == name then Some(slots[0].role)
    else RoleOf(slots[1..], name)
  }

  /** A name that has a slot keeps it, and its role; a new one gets the next. */
  function AddMethod(slots: seq<Slot>, m: Method): Option<seq<Slot>> {
    match RoleOf(slots, m.name)
    case Some(role) => if m.role == role then Some(slots) else None
    case None => Some(if HasSlot(m.role) then slots + [Slot(m.name, m.role)] else slots)
  }

  function AddClass(slots: seq<Slot>, c: Class): Option<seq<Slot>>
    decreases |c|
  {
    if c == [] then Some(slots)
    else match AddMethod(slots, c[0])
         case Some(slots') => AddClass(slots', c[1..])
         case None => None
  }

  function AddClasses(slots: seq<Slot>, classes: seq<Class>): Option<seq<Slot>>
    decreases |classes|
  {
    if classes == [] then Some(slots)
    else match AddClass(slots, classes[0])
         case Some(slots') => AddClasses(slots', classes[1..])
         case None => None
  }

  /** The slot table of the last class of a chain, or the error that an
      override changes a role. */
  function Slots(chain: seq<Class>): Option<seq<Slot>> { AddClasses([], chain) }

  // ---- What the slots are ----

  ghost predicate DistinctNames(slots: seq<Slot>) {
    forall i, j :: 0 <= i < j < |slots| ==> slots[i].name != slots[j].name
  }

  lemma {:induction false} AddClassExtends(slots: seq<Slot>, c: Class)
    requires DistinctNames(slots) && AddClass(slots, c).Some?
    ensures slots <= AddClass(slots, c).value && DistinctNames(AddClass(slots, c).value)
    decreases |c|
  {
    if c != [] { AddClassExtends(AddMethod(slots, c[0]).value, c[1..]); }
  }

  lemma {:induction false} AddClassesExtends(slots: seq<Slot>, classes: seq<Class>)
    requires DistinctNames(slots) && AddClasses(slots, classes).Some?
    ensures slots <= AddClasses(slots, classes).value && DistinctNames(AddClasses(slots, classes).value)
    decreases |classes|
  {
    if classes != [] {
      AddClassExtends(slots, classes[0]);
      AddClassesExtends(AddClass(slots, classes[0]).value, classes[1..]);
    }
  }

  lemma {:induction false} AddClassesSplit(slots: seq<Slot>, bases: seq<Class>, rest: seq<Class>)
    ensures AddClasses(slots, bases + rest) ==
      match AddClasses(slots, bases) case Some(s) => AddClasses(s, rest) case None => None
    decreases |bases|
  {
    if bases == [] {
      assert bases + rest == rest;
    } else {
      assert (bases + rest)[1..] == bases[1..] + rest;
      var s := AddClass(slots, bases[0]);
      if s.Some? { AddClassesSplit(s.value, bases[1..], rest); }
    }
  }

  /** On a single-inheritance chain the slots of a base are a prefix of those
      of every class derived from it: the prefix check never fails. */
  lemma BaseSlotsArePrefix(bases: seq<Class>, rest: seq<Class>)
    requires Slots(bases + rest).Some?
    ensures Slots(bases).Some? && Slots(bases).value <= Slots(bases + rest).value
  {
    AddClassesSplit([], bases, rest);
    AddClassesExtends([], bases);
    AddClassesExtends(Slots(bases).value, rest);
  }

  // ---- In which order, and when not ----

  /** The methods of a chain as the loops meet them, bases first. */
  function Methods(chain: seq<Class>): seq<Method>
    decreases |chain|
  {
    if chain == [] then [] else chain[0] + Methods(chain[1..])
  }

  /** Where a name is first declared with a role that has a slot; |ms| if nowhere. */
  function FirstSlotted(ms: seq<Method>, name: string): (i: nat)
    ensures i <= |ms|
  {
    if ms == [] || (ms[0].name == name && HasSlot(ms[0].role)) then 0 else 1 + FirstSlotted(ms[1..], name)
  }

  lemma {:induction false} FirstIsFirst(ms: seq<Method>, name: string)
    ensures var i := FirstSlotted(ms, name);
      && (i < |ms| ==> ms[i].name == name && HasSlot(ms[i].role))
      && forall j :: 0 <= j < i ==> !(ms[j].name == name && HasSlot(ms[j].role))
  {
    if ms != [] && !(ms[0].name == name && HasSlot(ms[0].role)) {
      FirstIsFirst(ms[1..], name);
      assert forall j :: 0 < j <= |ms[1..]| ==> ms[j] == ms[1..][j - 1];
    }
  }

  ghost predicate HasClash(ms: seq<Method>) {
    exists i, j :: 0 <= i < j < |ms| && Clash(ms[i], ms[j])
  }

  /** One slot for each name declared with such a role, with the role of its
      first declaration, in the order of the first declarations. */
  ghost predicate InOrder(slots: seq<Slot>, ms: seq<Method>) {
    && (forall k :: 0 <= k < |slots| ==> IsFirst(slots[k], ms))
    && (forall k, l :: 0 <= k < l < |slots| ==> FirstSlotted(ms, slots[k].name) < FirstSlotted(ms, slots[l].name))
    && (forall name: string :: FirstSlotted(ms, name) < |ms| ==> RoleOf(slots, name).Some?)
  }

  ghost predicate IsFirst(slot: Slot, ms: seq<Method>) {
    FirstSlotted(ms, slot.name) < |ms| && slot.role == ms[FirstSlotted(ms, slot.name)].role
  }

  lemma {:induction false} AddClassSplit(slots: seq<Slot>, a: Class, b: Class)
    ensures AddClass(slots, a + b) == match AddClass(slots, a) case Some(s) => AddClass(s, b) case None => None
    decreases |a|
  {
    if a == [] {
      assert a + b == b;
    } else {
      assert (a + b)[1..] == a[1..] + b;
      var s := AddMethod(slots, a[0]);
      if s.Some? { AddClassSplit(s.value, a[1..], b); }
    }
  }

  lemma {:induction false} ClassesAreMethods(slots: seq<Slot>, chain: seq<Class>)
    ensures AddClasses(slots, chain) == AddClass(slots, Methods(chain))
    decreases |chain|
  {
    if chain != [] {
      AddClassSplit(slots, chain[0], Methods(chain[1..]));
      var s := AddClass(slots, chain[0]);
      if s.Some? { ClassesAreMethods(s.value, chain[1..]); }
    }
  }

  lemma {:induction false} FirstOfMore(ms: seq<Method>, m: Method, name: string)
    ensures FirstSlotted(ms + [m], name) ==
      if FirstSlotted(ms, name) < |ms| then FirstSlotted(ms, name)
      else if m.name == name && HasSlot(m.role) then |ms| else |ms| + 1
  {
    if ms != [] {
      assert (ms + [m])[1..] == ms[1..] + [m];
      FirstOfMore(ms[1..], m, name);
    }
  }

  /** The role of a name that has a slot is that of its first declaration. */
  lemma {:induction false} RoleIsFirst(slots: seq<Slot>, ms: seq<Method>, name: string)
    requires InOrder(slots, ms)
    ensures RoleOf(slots, name) == if FirstSlotted(ms, name) < |ms| then Some(ms[FirstSlotted(ms, name)].role) else None
  {
    if RoleOf(slots, name).Some? { var k := RoleAt(slots, name); }
  }

  lemma {:induction false} RoleAt(slots: seq<Slot>, name: string) returns (k: nat)
    requires RoleOf(slots, name).Some?
    ensures k < |slots| && slots[k] == Slot(name, RoleOf(slots, name).value)
  {
    if slots[0].name == name {
      k := 0;
    } else {
      k := RoleAt(slots[1..], name);
      k := k + 1;
    }
  }

  lemma OneMoreClash(ms: seq<Method>, m: Method)
    ensures HasClash(ms + [m]) <==> HasClash(ms) || exists i :: 0 <= i < |ms| && Clash(ms[i], m)
  {
    var more := ms + [m];
    assert forall i :: 0 <= i < |ms| ==> more[i] == ms[i];
    if i, j :| 0 <= i < j < |more| && Clash(more[i], more[j]) {
      assert j == |ms| || Clash(ms[i], ms[j]);
    }
    if i, j :| 0 <= i < j < |ms| && Clash(ms[i], ms[j]) { assert Clash(more[i], more[j]); }
    if i :| 0 <= i < |ms| && Clash(ms[i], m) { assert Clash(more[i], more[|ms|]); }
  }

  lemma {:induction false} SlotsOfMethods(ms: seq<Method>)
    ensures AddClass([], ms).None? <==> HasClash(ms)
    ensures AddClass([], ms).Some? ==> InOrder(AddClass([], ms).value, ms)
    decreases |ms|
  {
    if ms != [] {
      var init, m := ms[..|ms| - 1], ms[|ms| - 1];
      assert ms == init + [m];
      SlotsOfMethods(init);
      AddClassSplit([], init, [m]);
      OneMoreClash(init, m);
      if AddClass([], init).Some? { OneMoreMethod(AddClass([], init).value, init, m); }
    }
  }

  lemma OneMoreMethod(slots: seq<Slot>, ms: seq<Method>, m: Method)
    requires InOrder(slots, ms) && !HasClash(ms)
    ensures AddClass(slots, [m]) == AddMethod(slots, m)
    ensures AddMethod(slots, m).None? <==> exists i :: 0 <= i < |ms| && Clash(ms[i], m)
    ensures AddMethod(slots, m).Some? ==> InOrder(AddMethod(slots, m).value, ms + [m])
  {
    hide InOrder;
    RoleIsFirst(slots, ms, m.name);
    FirstIsFirst(ms, m.name);
    var f := FirstSlotted(ms, m.name);
    if i :| 0 <= i < |ms| && Clash(ms[i], m) {
      assert f <= i;
      assert f < i ==> !Clash(ms[f], ms[i]);
    }
    if f < |ms| && ms[f].role != m.role { assert Clash(ms[f], m); }
    if f < |ms| || !HasSlot(m.role) {
      OrderKept(slots, ms, m);
    } else {
      OrderGrows(slots, ms, m);
    }
  }

  lemma FirstStays(slot: Slot, ms: seq<Method>, m: Method)
    requires IsFirst(slot, ms)
    ensures IsFirst(slot, ms + [m]) && FirstSlotted(ms + [m], slot.name) == FirstSlotted(ms, slot.name)
  {
    FirstOfMore(ms, m, slot.name);
  }

  lemma OrderKept(slots: seq<Slot>, ms: seq<Method>, m: Method)
    requires InOrder(slots, ms) && (FirstSlotted(ms, m.name) < |ms| || !HasSlot(m.role))
    ensures InOrder(slots, ms + [m])
  {
    hide FirstSlotted, RoleOf, IsFirst;
    forall k | 0 <= k < |slots|
      ensures IsFirst(slots[k], ms + [m]) && FirstSlotted(ms + [m], slots[k].name) == FirstSlotted(ms, slots[k].name)
    {
      FirstStays(slots[k], ms, m);
    }
    forall name: string | FirstSlotted(ms + [m], name) < |ms| + 1 ensures RoleOf(slots, name).Some? {
      FirstOfMore(ms, m, name);
    }
  }

  lemma RoleOfMore(slots: seq<Slot>, slot: Slot, name: string)
    ensures RoleOf(slots, name).Some? || slot.name == name ==> RoleOf(slots + [slot], name).Some?
  {
    var more := slots + [slot];
    assert more[|slots|] == slot;
    if RoleOf(slots, name).Some? {
      var k := RoleAt(slots, name);
      assert more[k].name == name;
    }
  }

  lemma SlotsStayFirst(slots: seq<Slot>, ms: seq<Method>, m: Method)
    requires forall k :: 0 <= k < |slots| ==> IsFirst(slots[k], ms)
    ensures forall k :: 0 <= k < |slots| ==>
      IsFirst(slots[k], ms + [m]) && FirstSlotted(ms + [m], slots[k].name) == FirstSlotted(ms, slots[k].name) < |ms|
  {
    hide FirstSlotted, IsFirst;
    forall k | 0 <= k < |slots|
      ensures IsFirst(slots[k], ms + [m]) && FirstSlotted(ms + [m], slots[k].name) == FirstSlotted(ms, slots[k].name) < |ms|
    {
      FirstStays(slots[k], ms, m);
      FirstBounds(slots[k], ms);
    }
  }

  lemma AllHaveSlots(slots: seq<Slot>, ms: seq<Method>, m: Method)
    requires forall name: string :: FirstSlotted(ms, name) < |ms| ==> RoleOf(slots, name).Some?
    ensures forall name: string :: FirstSlotted(ms + [m], name) < |ms| + 1 ==> RoleOf(slots + [Slot(m.name, m.role)], name).Some?
  {
    hide FirstSlotted, RoleOf;
    forall name: string | FirstSlotted(ms + [m], name) < |ms| + 1 ensures RoleOf(slots + [Slot(m.name, m.role)], name).Some? {
      FirstOfMore(ms, m, name);
      RoleOfMore(slots, Slot(m.name, m.role), name);
    }
  }

  lemma OrderGrows(slots: seq<Slot>, ms: seq<Method>, m: Method)
    requires InOrder(slots, ms) && FirstSlotted(ms, m.name) == |ms| && HasSlot(m.role)
    ensures InOrder(slots + [Slot(m.name, m.role)], ms + [m])
  {
    hide FirstSlotted, RoleOf, IsFirst;
    FirstOfMore(ms, m, m.name);
    NewIsFirst(ms, m);
    SlotsStayFirst(slots, ms, m);
    AllHaveSlots(slots, ms, m);
  }

  lemma NewIsFirst(ms: seq<Method>, m: Method)
    requires FirstSlotted(ms + [m], m.name) == |ms|
    ensures IsFirst(Slot(m.name, m.role), ms + [m])
  {
  }

  lemma FirstBounds(slot: Slot, ms: seq<Method>)
    ensures IsFirst(slot, ms) ==> FirstSlotted(ms, slot.name) < |ms|
  {
  }

  /** The table fails exactly when some class re-declares a name that has a
      slot with another role; otherwise its slots are the names declared as
      event, predicate or function, in the order of their first declarations. */
  lemma SlotsAreFirstDeclarations(chain: seq<Class>)
    ensures Slots(chain).None? <==> HasClash(Methods(chain))
    ensures Slots(chain).Some? ==> InOrder(Slots(chain).value, Methods(chain))
  {
    ClassesAreMethods([], chain);
    SlotsOfMethods(Methods(chain));
  }

  ghost predicate Names(slots: seq<Slot>, name: string) { exists k :: 0 <= k < |slots| && slots[k].name == name }

  /** One of the methods of this name is an event, predicate or function. */
  ghost predicate Dispatched(ms: seq<Method>, name: string) {
    exists i :: 0 <= i < |ms| && ms[i].name == name && (ms[i].role == Event || ms[i].role == Predicate || ms[i].role == Function)
  }

  /** The names that have slots are those of events, predicates and functions;
      and the table fails exactly when such a method is declared again with
      another role. */
  lemma SlotNames(chain: seq<Class>)
    ensures Slots(chain).None? <==> exists i, j :: 0 <= i < j < |Methods(chain)| && var (m, n) := (Methods(chain)[i], Methods(chain)[j]);
      m.name == n.name && m.role != n.role && (m.role == Event || m.role == Predicate || m.role == Function)
    ensures Slots(chain).Some? ==> forall name: string :: Names(Slots(chain).value, name) <==> Dispatched(Methods(chain), name)
  {
    var ms := Methods(chain);
    SlotsAreFirstDeclarations(chain);
    assert HasClash(ms) <==> exists i, j :: 0 <= i < j < |ms| && Clash(ms[i], ms[j]);
    if Slots(chain).Some? {
      forall name: string ensures Names(Slots(chain).value, name) <==> Dispatched(ms, name) {
        FirstIsFirst(ms, name);
        RoleIsFirst(Slots(chain).value, ms, name);
      }
    }
  }

  // ---- Dispatch ----

  /** The body that a class's own dictionary gives a name. */
  function Own(c: Class, name: string): Option<nat> {
    if c == [] then None else if c[0].name == name then Some(c[0].body) else Own(c[1..], name)
  }

  /** The attribute lookup of the chain's last class: the most derived body. */
  function Lookup(chain: seq<Class>, name: string): Option<nat>
    decreases |chain|
  {
    if chain == [] then None
    else match Own(chain[|chain| - 1], name)
         case Some(body) => Some(body)
         case None => Lookup(chain[..|chain| - 1], name)
  }

  /** The table compiled for the chain's last class. */
  function Table(chain: seq<Class>): (t: seq<Option<nat>>)
    requires Slots(chain).Some?
    ensures |t| == |Slots(chain).value|
  {
    var slots := Slots(chain).value;
    seq(|slots|, i requires 0 <= i < |slots| => Lookup(chain, slots[i].name))
  }

  lemma {:induction false} SlotIsDefined(slots: seq<Slot>, c: Class, name: string)
    requires AddClass(slots, c).Some? && RoleOf(AddClass(slots, c).value, name).Some?
    ensures RoleOf(slots, name).Some? || Own(c, name).Some?
    decreases |c|
  {
    if c != [] {
      SlotIsDefined(AddMethod(slots, c[0]).value, c[1..], name);
      if RoleOf(slots, name).None? && RoleOf(AddMethod(slots, c[0]).value, name).Some? {
        var s := AddMethod(slots, c[0]).value;
        var i :| 0 <= i < |s| && s[i].name == name;
        assert i == |slots|;
      }
    }
  }

  lemma {:induction false} EverySlotHasABody(chain: seq<Class>, i: nat)
    requires Slots(chain).Some? && i < |Slots(chain).value|
    ensures Lookup(chain, Slots(chain).value[i].name).Some?
    decreases |chain|
  {
    if chain != [] {
      var bases, last := chain[..|chain| - 1], chain[|chain| - 1];
      assert chain == bases + [last];
      AddClassesSplit([], bases, [last]);
      var s := Slots(bases).value;
      assert AddClasses(s, [last]) == AddClass(s, last);
      var name := Slots(chain).value[i].name;
      SlotIsDefined(s, last, name);
      if Own(last, name).None? {
        var j :| 0 <= j < |s| && s[j].name == name;
        EverySlotHasABody(bases, j);
      }
    }
  }

  predicate Declares(c: Class, name: string) { exists j :: 0 <= j < |c| && c[j].name == name }

  /** A dictionary has one method for each name that it has. */
  lemma {:induction false} OwnIs(c: Class, name: string)
    ensures Own(c, name).Some? <==> Declares(c, name)
    ensures Own(c, name).Some? ==> exists j :: 0 <= j < |c| && c[j].name == name && Own(c, name) == Some(c[j].body)
  {
    if c != [] && c[0].name != name {
      OwnIs(c[1..], name);
      if Own(c[1..], name).Some? {
        var j :| 0 <= j < |c[1..]| && c[1..][j].name == name && Own(c[1..], name) == Some(c[1..][j].body);
        assert c[j + 1] == c[1..][j];
      }
      if Declares(c, name) {
        var j :| 0 <= j < |c| && c[j].name == name;
        assert c[1..][j - 1] == c[j];
      }
    }
  }

  /** A call through a slot of a base reaches, in an instance of any class
      derived from it, the method of that name of the last class of the chain
      that declares one, and there is one. */
  lemma BaseCallReachesOverride(bases: seq<Class>, rest: seq<Class>, i: nat) returns (owner: nat, j: nat)
    requires Slots(bases + rest).Some? && Slots(bases).Some? && i < |Slots(bases).value|
    ensures var whole := bases + rest; var name := Slots(bases).value[i].name;
      && i < |Slots(whole).value| && Slots(whole).value[i] == Slots(bases).value[i]
      && owner < |whole| && j < |whole[owner]| && whole[owner][j].name == name && Table(whole)[i] == Some(whole[owner][j].body)
      && (forall c :: owner < c < |whole| ==> !Declares(whole[c], name))
  {
    var whole := bases + rest;
    var name := Slots(bases).value[i].name;
    BaseSlotsArePrefix(bases, rest);
    EverySlotHasABody(whole, i);
    owner := LastOwner(whole, name);
    forall c | 0 <= c < |whole| ensures Own(whole[c], name).Some? <==> Declares(whole[c], name) { OwnIs(whole[c], name); }
    OwnIs(whole[owner], name);
    j :| 0 <= j < |whole[owner]| && whole[owner][j].name == name && Own(whole[owner], name) == Some(whole[owner][j].body);
  }

  lemma {:induction false} LastOwner(chain: seq<Class>, name: string) returns (owner: nat)
    requires Lookup(chain, name).Some?
    ensures owner < |chain| && Own(chain[owner], name) == Lookup(chain, name)
    ensures forall c :: owner < c < |chain| ==> Own(chain[c], name).None?
    decreases |chain|
  {
    owner := |chain| - 1;
    if Own(chain[owner], name).None? { owner := LastOwner(chain[..owner], name); }
  }

  // ---- The loops ----

  /** The `slotted` dictionary of ClassSchema.of, in the order of insertion. */
  method SlotsOf(chain: seq<Class>) returns (slotted: Option<seq<Slot>>)
    ensures slotted == Slots(chain)
    ensures slotted.None? <==> HasClash(Methods(chain))
    ensures slotted.Some? ==> InOrder(slotted.value, Methods(chain))
  {
    SlotsAreFirstDeclarations(chain);
    var slots: seq<Slot> := [];
    var b := 0;
    assert chain[0..] == chain;
    while b < |chain|
      invariant 0 <= b <= |chain| && AddClasses(slots, chain[b..]) == Slots(chain)
    {
      var c := chain[b];
      ghost var before := slots;
      var m := 0;
      assert c[0..] == c;
      while m < |c|
        invariant 0 <= m <= |c| && AddClass(slots, c[m..]) == AddClass(before, c)
      {
        var role := RoleOf(slots, c[m].name);
        if role.Some? {
          if c[m].role != role.value { return None; }
        } else if HasSlot(c[m].role) {
          slots := slots + [Slot(c[m].name, c[m].role)];
        }
        assert c[m..][1..] == c[m + 1..];
        m := m + 1;
      }
      assert chain[b..][1..] == chain[b + 1..];
      b := b + 1;
    }
    slotted := Some(slots);
  }
}
