/** Selecting running processes by full or short node name through one index, against linear search. */
module ProcessIndex {
  import opened Basics
  import opened NodeNames

  datatype Process = Process(pid: string, nodeName: string)

  // ---- The reference: linear search ----

  function LastNamed(processes: seq<Process>, name: string): Option<Process> {
    if processes == [] then None
    else if processes[|processes| - 1].nodeName == name then Some(processes[|processes| - 1])
    else LastNamed(processes[..|processes| - 1], name)
  }

  function LastShort(processes: seq<Process>, short: string): Option<Process> {
    if processes == [] then None
    else if ShortName(processes[|processes| - 1].nodeName) == short then Some(processes[|processes| - 1])
    else LastShort(processes[..|processes| - 1], short)
  }

  /** The processes with this short name belong to different nodes. */
  ghost predicate Ambiguous(processes: seq<Process>, short: string) {
    exists p, q ::
      && p in processes && q in processes
      && ShortName(p.nodeName) == short == ShortName(q.nodeName) && p.nodeName != q.nodeName
  }

  /** A full name means its last process; a short name means the last of its processes unless two nodes share it. */
  ghost function Resolve(processes: seq<Process>, name: string): Option<Process> {
    if LastNamed(processes, name).Some? then LastNamed(processes, name)
    else if Ambiguous(processes, name) then None
    else LastShort(processes, name)
  }

  /** After the last process of this full name comes another node whose short name it is. */
  predicate Shadowed(processes: seq<Process>, name: string) {
    if processes == [] || processes[|processes| - 1].nodeName == name then false
    else if ShortName(processes[|processes| - 1].nodeName) == name && LastNamed(processes, name).Some? then true
    else Shadowed(processes[..|processes| - 1], name)
  }

  // ---- The index ----

  /** What the index holds for one name, and whether the name is marked ambiguous. */
  datatype Slot = Slot(entry: Option<Process>, marked: bool)

  function Entered(slot: Slot, p: Process, name: string): Slot {
    if p.nodeName == name then Slot(Some(p), slot.marked)
    else if ShortName(p.nodeName) != name then slot
    else if slot.entry.Some? && slot.entry.value.nodeName != p.nodeName then Slot(None, true)
    else if slot.marked then slot
    else Slot(Some(p), false)
  }

  function SlotOf(processes: seq<Process>, name: string): Slot {
    if processes == [] then Slot(None, false)
    else Entered(SlotOf(processes[..|processes| - 1], name), processes[|processes| - 1], name)
  }

  function Lookup(processes: seq<Process>, name: string): Option<Process> {
    SlotOf(processes, name).entry
  }

  ghost predicate Holds(byName: map<string, Process>, ambiguous: set<string>, processes: seq<Process>) {
    forall n :: SlotOf(processes, n) == Slot(if n in byName then Some(byName[n]) else None, n in ambiguous)
  }

  /** The loop that fills the index. */
  method BuildIndex(processes: seq<Process>) returns (byName: map<string, Process>)
    ensures forall n :: Lookup(processes, n) == if n in byName then Some(byName[n]) else None
  {
    byName := map[];
    var ambiguous: set<string> := {};
    for i := 0 to |processes|
      invariant Holds(byName, ambiguous, processes[..i])
    {
      ghost var byNameBefore, ambiguousBefore := byName, ambiguous;
      var process := processes[i];
      byName := byName[process.nodeName := process];
      var short := ShortName(process.nodeName);
      if short in byName && byName[short].nodeName != process.nodeName {
        byName := byName - {short};
        ambiguous := ambiguous + {short};
      } else if short !in ambiguous {
        byName := byName[short := process];
      }
      forall n ensures SlotOf(processes[..i + 1], n) == Slot(if n in byName then Some(byName[n]) else None, n in ambiguous) {
        assert processes[..i + 1][..i] == processes[..i];
        assert SlotOf(processes[..i], n) ==
               Slot(if n in byNameBefore then Some(byNameBefore[n]) else None, n in ambiguousBefore);
      }
    }
    assert processes[..|processes|] == processes;
  }

  // ---- The index agrees with linear search ----

  lemma LastNamedFinds(processes: seq<Process>, name: string)
    ensures LastNamed(processes, name).Some? ==> LastNamed(processes, name).value.nodeName == name
  {
  }

  /** A full name is never resolved to a process of another name, so a failure there is reported under it. */
  lemma {:induction false} FullNameFound(processes: seq<Process>, name: string)
    requires '@' in name && Lookup(processes, name).Some?
    ensures Lookup(processes, name).value in processes && Lookup(processes, name).value.nodeName == name
  {
    if processes != [] && processes[|processes| - 1].nodeName != name {
      FullNameFound(processes[..|processes| - 1], name);
    }
  }

  lemma {:induction false} LastShortIn(processes: seq<Process>, short: string)
    requires LastShort(processes, short).Some?
    ensures LastShort(processes, short).value in processes && ShortName(LastShort(processes, short).value.nodeName) == short
  {
    if ShortName(processes[|processes| - 1].nodeName) != short {
      LastShortIn(processes[..|processes| - 1], short);
    }
  }

  lemma {:induction false} LastShortExists(processes: seq<Process>, short: string, k: nat)
    requires k < |processes| && ShortName(processes[k].nodeName) == short
    ensures LastShort(processes, short).Some?
  {
    if k < |processes| - 1 {
      LastShortExists(processes[..|processes| - 1], short, k);
    }
  }

  lemma LastShortFinds(processes: seq<Process>, short: string)
    ensures LastShort(processes, short).Some? <==> exists p :: p in processes && ShortName(p.nodeName) == short
    ensures LastShort(processes, short).Some? ==>
      LastShort(processes, short).value in processes && ShortName(LastShort(processes, short).value.nodeName) == short
  {
    if LastShort(processes, short).Some? {
      LastShortIn(processes, short);
    }
    forall p | p in processes && ShortName(p.nodeName) == short ensures LastShort(processes, short).Some? {
      var k :| 0 <= k < |processes| && processes[k] == p;
      LastShortExists(processes, short, k);
    }
  }

  lemma AmbiguousSnoc(processes: seq<Process>, last: Process, short: string)
    ensures Ambiguous(processes + [last], short) <==>
      || Ambiguous(processes, short)
      || (ShortName(last.nodeName) == short &&
          exists p :: p in processes && ShortName(p.nodeName) == short && p.nodeName != last.nodeName)
  {
    assert forall p :: p in processes + [last] <==> p in processes || p == last;
  }

  /** A name nobody has in full: the index finds it unless it is ambiguous, and marks it exactly then. */
  lemma {:induction false} ShortSlot(processes: seq<Process>, name: string)
    requires LastNamed(processes, name).None?
    ensures SlotOf(processes, name) ==
      if Ambiguous(processes, name) then Slot(None, true) else Slot(LastShort(processes, name), false)
  {
    if processes != [] {
      var front, last := processes[..|processes| - 1], processes[|processes| - 1];
      ShortSlot(front, name);
      assert processes == front + [last];
      AmbiguousSnoc(front, last, name);
      LastShortFinds(front, name);
    }
  }

  /** A name somebody has in full: the index finds its last process unless another node shadows it. */
  lemma {:induction false} FullSlot(processes: seq<Process>, name: string)
    requires LastNamed(processes, name).Some?
    ensures if Shadowed(processes, name) then SlotOf(processes, name) == Slot(None, true)
      else SlotOf(processes, name).entry == LastNamed(processes, name)
  {
    var front, last := processes[..|processes| - 1], processes[|processes| - 1];
    if last.nodeName != name {
      FullSlot(front, name);
      LastNamedFinds(front, name);
    }
  }

  lemma {:induction false} ShadowedHasName(processes: seq<Process>, name: string)
    requires Shadowed(processes, name)
    ensures LastNamed(processes, name).Some? && '@' !in name
    ensures exists p :: p in processes && p.nodeName == name
  {
    var front, last := processes[..|processes| - 1], processes[|processes| - 1];
    assert processes == front + [last];
    if ShortName(last.nodeName) == name && LastNamed(processes, name).Some? {
      LastNamedIn(processes, name);
    } else {
      ShadowedHasName(front, name);
    }
  }

  lemma {:induction false} LastNamedIn(processes: seq<Process>, name: string)
    requires LastNamed(processes, name).Some?
    ensures LastNamed(processes, name).value in processes && LastNamed(processes, name).value.nodeName == name
  {
    if processes[|processes| - 1].nodeName != name {
      LastNamedIn(processes[..|processes| - 1], name);
    }
  }

  /** The index answers as linear search does exactly for the names that are not shadowed. */
  lemma LookupIsSearch(processes: seq<Process>, name: string)
    ensures Lookup(processes, name) == Resolve(processes, name) <==> !Shadowed(processes, name)
    ensures Shadowed(processes, name) ==> Lookup(processes, name) == None
  {
    if LastNamed(processes, name).Some? {
      FullSlot(processes, name);
    } else {
      ShortSlot(processes, name);
      if Shadowed(processes, name) {
        ShadowedHasName(processes, name);
      }
    }
  }

  /** Nothing is shadowed when every node name has a host part. */
  lemma HostedNamesResolve(processes: seq<Process>, name: string)
    requires forall p | p in processes :: '@' in p.nodeName
    ensures Lookup(processes, name) == Resolve(processes, name)
  {
    LookupIsSearch(processes, name);
    if Shadowed(processes, name) {
      ShadowedHasName(processes, name);
    }
  }

  /** A node without a host part is lost when a later node has its name as short name. */
  lemma ShadowedWitness()
    ensures var processes := [Process("1", "a"), Process("2", "a@h")];
      Lookup(processes, "a") == None && Resolve(processes, "a") == Some(processes[0])
  {
    var processes := [Process("1", "a"), Process("2", "a@h")];
    assert processes[..1] == [processes[0]] && [processes[0]][..0] == [];
    assert ShortName("a@h") == "a" by {
      assert "a@h"[1..] == "@h";
      assert ShortName("@h") == "";
    }
    assert LastNamed([processes[0]], "a") == Some(processes[0]);
    assert LastNamed(processes, "a") == Some(processes[0]);
    assert Shadowed(processes, "a");
    LookupIsSearch(processes, "a");
  }

  // ---- The selection ----

  function Selected(names: seq<string>, find: string -> Option<Process>): seq<Process> {
    if names == [] then []
    else
      var rest := Selected(names[..|names| - 1], find);
      match find(names[|names| - 1]) case Some(p) => rest + [p] case None => rest
  }

  function Missing(names: seq<string>, find: string -> Option<Process>): seq<string> {
    if names == [] then []
    else
      var rest := Missing(names[..|names| - 1], find);
      if find(names[|names| - 1]).Some? then rest else rest + [names[|names| - 1]]
  }

  lemma {:induction false} SameSelection(names: seq<string>, f: string -> Option<Process>, g: string -> Option<Process>)
    requires forall n | n in names :: f(n) == g(n)
    ensures Selected(names, f) == Selected(names, g) && Missing(names, f) == Missing(names, g)
  {
    if names != [] {
      SameSelection(names[..|names| - 1], f, g);
    }
  }

  lemma SelectionIsSearch(processes: seq<Process>, names: seq<string>)
    requires forall p | p in processes :: '@' in p.nodeName
    ensures Selected(names, n => Lookup(processes, n)) == Selected(names, n => Resolve(processes, n))
    ensures Missing(names, n => Lookup(processes, n)) == Missing(names, n => Resolve(processes, n))
  {
    forall n | n in names ensures Lookup(processes, n) == Resolve(processes, n) {
      HostedNamesResolve(processes, n);
    }
    SameSelection(names, n => Lookup(processes, n), n => Resolve(processes, n));
  }

  /** Found and missing partition the request. */
  lemma {:induction false} SelectionPartitions(names: seq<string>, find: string -> Option<Process>)
    ensures |Selected(names, find)| + |Missing(names, find)| == |names|
    ensures forall n :: n in Missing(names, find) <==> n in names && find(n).None?
    ensures forall p :: p in Selected(names, find) <==> exists n :: n in names && find(n) == Some(p)
  {
    if names != [] {
      var front, last := names[..|names| - 1], names[|names| - 1];
      SelectionPartitions(front, find);
      assert forall n :: n in names <==> n in front || n == last by {
        assert names == front + [last];
      }
      forall p ensures p in Selected(names, find) <==> exists n :: n in names && find(n) == Some(p) {
        assert p in Selected(names, find) <==> p in Selected(front, find) || find(last) == Some(p);
      }
    }
  }

  /** Both lists follow the order of the request: a longer request only adds to their ends. */
  lemma {:induction false} SelectionInOrder(names: seq<string>, find: string -> Option<Process>, k: nat)
    requires k <= |names|
    ensures Selected(names[..k], find) <= Selected(names, find) && Missing(names[..k], find) <= Missing(names, find)
  {
    if k == |names| {
      assert names[..k] == names;
    } else {
      var front := names[..|names| - 1];
      SelectionInOrder(front, find, k);
      assert front[..k] == names[..k];
    }
  }

  /** selectBeamProcesses: each requested name once, in the order first requested, found or missing. */
  method SelectBeamProcesses(processes: seq<Process>, nodeNames: seq<string>)
    returns (selected: seq<Process>, missing: seq<string>)
    ensures selected == Selected(Distinct(nodeNames), n => Lookup(processes, n))
    ensures missing == Missing(Distinct(nodeNames), n => Lookup(processes, n))
    ensures (forall p | p in processes :: '@' in p.nodeName) ==>
      && selected == Selected(Distinct(nodeNames), n => Resolve(processes, n))
      && missing == Missing(Distinct(nodeNames), n => Resolve(processes, n))
  {
    var byName := BuildIndex(processes);
    selected, missing := [], [];
    var seen: set<string> := {};
    ghost var find := n => Lookup(processes, n);
    for i := 0 to |nodeNames|
      invariant seen == Members(Distinct(nodeNames[..i]))
      invariant selected == Selected(Distinct(nodeNames[..i]), find) && missing == Missing(Distinct(nodeNames[..i]), find)
    {
      var name := nodeNames[i];
      assert nodeNames[..i + 1][..i] == nodeNames[..i];
      var done := Distinct(nodeNames[..i]);
      assert (done + [name])[..|done|] == done;
      MembersSnoc(done, name);
      assert name in seen <==> name in done;
      if name !in seen {
        seen := seen + {name};
        if name in byName {
          selected := selected + [byName[name]];
        } else {
          missing := missing + [name];
        }
      }
    }
    assert nodeNames[..|nodeNames|] == nodeNames;
    if forall p | p in processes :: '@' in p.nodeName {
      SelectionIsSearch(processes, Distinct(nodeNames));
    }
  }
}
