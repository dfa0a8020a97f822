/**
 Fitting the newest entries of a list into a budget of characters, from the newest back. How an entry is
 written for a given room, and how much it takes besides its content, are parameters.
 */
module TailFitting {

  /** The pieces for the newest entries while there is room, in list order. */
  function Pieces<T>(entries: seq<T>, write: (T, int) -> string, overhead: T -> nat, budget: nat, used: nat): seq<string> {
    if entries == [] then []
    else
      var last, front := entries[|entries| - 1], entries[..|entries| - 1];
      var room := budget - used - overhead(last);
      if room <= 0 then []
      else Pieces(front, write, overhead, budget, used + |write(last, room)| + 2) + [write(last, room)]
  }

  function Joined(pieces: seq<string>): string {
    if pieces == [] then ""
    else if |pieces| == 1 then pieces[0]
    else Joined(pieces[..|pieces| - 1]) + ("\n\n" + pieces[|pieces| - 1])
  }

  function Total(pieces: seq<string>): nat {
    if pieces == [] then 0 else Total(pieces[..|pieces| - 1]) + |pieces[|pieces| - 1]| + 2
  }

  lemma {:induction false} JoinedLength(pieces: seq<string>)
    requires pieces != []
    ensures |Joined(pieces)| + 2 == Total(pieces)
  {
    var n := |pieces| - 1;
    if n > 0 {
      JoinedLength(pieces[..n]);
    } else {
      assert pieces[..0] == [];
    }
  }

  /**
   A piece may exceed its room by five characters over its overhead; one that takes more than its room
   without the marker is longer than five.
   */
  ghost predicate WritesWithin<T(!new)>(write: (T, int) -> string, overhead: T -> nat) {
    forall t, room | room > 0 ::
      && |write(t, room)| <= overhead(t) + room + 5
      && (|write(t, room)| > overhead(t) + room - 3 ==> |write(t, room)| > 5)
  }

  /** All pieces together overshoot by at most five, and then the oldest of them alone is longer than that. */
  lemma {:induction false} Overshoot<T(!new)>(entries: seq<T>, write: (T, int) -> string, overhead: T -> nat,
                                              budget: nat, used: nat)
    requires WritesWithin(write, overhead)
    ensures var pieces := Pieces(entries, write, overhead, budget, used);
      pieces != [] ==> used + Total(pieces) <= budget + 7 && (used + Total(pieces) > budget + 2 ==> |pieces[0]| > 5)
  {
    if entries != [] {
      var last, front := entries[|entries| - 1], entries[..|entries| - 1];
      var room := budget - used - overhead(last);
      if room > 0 {
        var piece := write(last, room);
        var older := Pieces(front, write, overhead, budget, used + |piece| + 2);
        Overshoot(front, write, overhead, budget, used + |piece| + 2);
        assert (older + [piece])[..|older|] == older;
      }
    }
  }

  lemma DropConcat(a: string, b: string, cut: nat)
    requires cut <= |a|
    ensures (a + b)[cut..] == a[cut..] + b
  {
  }

  lemma JoinedSnoc(front: seq<string>, last: string)
    requires front != []
    ensures Joined(front + [last]) == Joined(front) + ("\n\n" + last)
  {
    assert (front + [last])[..|front|] == front;
  }

  /** The pieces with the first one shortened in front. */
  function Shortened(pieces: seq<string>, cut: nat): seq<string>
    requires pieces != [] && cut <= |pieces[0]|
  {
    [pieces[0][cut..]] + pieces[1..]
  }

  lemma DropStep(front: seq<string>, last: string, cut: nat)
    requires front != [] && cut <= |front[0]| && cut <= |Joined(front)|
    requires Joined(front)[cut..] == Joined(Shortened(front, cut))
    ensures cut <= |Joined(front + [last])| && Joined(front + [last])[cut..] == Joined(Shortened(front + [last], cut))
  {
    var text, tail := Joined(front), "\n\n" + last;
    JoinedSnoc(front, last);
    DropConcat(text, tail, cut);
    JoinedSnoc(Shortened(front, cut), last);
    assert Shortened(front + [last], cut) == Shortened(front, cut) + [last];
  }

  lemma {:induction false} JoinedDropFront(pieces: seq<string>, cut: nat)
    requires pieces != [] && cut <= |pieces[0]|
    ensures cut <= |Joined(pieces)| && Joined(pieces)[cut..] == Joined(Shortened(pieces, cut))
  {
    var n := |pieces| - 1;
    if n > 0 {
      JoinedDropFront(pieces[..n], cut);
      DropStep(pieces[..n], pieces[n], cut);
      assert pieces[..n] + [pieces[n]] == pieces;
    }
  }

  /** JavaScript's text.slice(-count), which for a count of zero is the whole text. */
  function SliceEnd(text: string, count: nat): string {
    if count == 0 || |text| <= count then text else text[|text| - count..]
  }

  function Bounded(text: string, budget: nat): string {
    if |text| > budget then SliceEnd(text, budget) else text
  }

  /** Cutting an overshoot off the front only shortens the oldest piece. */
  lemma BoundedJoined(pieces: seq<string>, budget: nat) returns (cut: nat)
    requires |Joined(pieces)| <= budget + 5
    requires |Joined(pieces)| > budget ==> budget > 0 && pieces != [] && |pieces[0]| > 5
    ensures cut == (if |Joined(pieces)| > budget then |Joined(pieces)| - budget else 0) <= 5
    ensures cut > 0 ==> pieces != [] && cut < |pieces[0]|
    ensures Bounded(Joined(pieces), budget) == Joined(if cut > 0 then Shortened(pieces, cut) else pieces)
  {
    cut := 0;
    if |Joined(pieces)| > budget {
      cut := |Joined(pieces)| - budget;
      JoinedDropFront(pieces, cut);
    }
  }

  lemma PiecesStep<T>(entries: seq<T>, last: T, write: (T, int) -> string, overhead: T -> nat,
                      budget: nat, used: nat, newer: seq<string>)
    requires budget - used - overhead(last) > 0
    ensures var piece := write(last, budget - used - overhead(last));
      Pieces(entries + [last], write, overhead, budget, used) + newer
      == Pieces(entries, write, overhead, budget, used + |piece| + 2) + ([piece] + newer)
  {
    assert (entries + [last])[..|entries|] == entries;
  }

  /** The loop that goes back from the newest entry while there is room. */
  method SelectPieces<T>(entries: seq<T>, write: (T, int) -> string, overhead: T -> nat, budget: nat)
    returns (selected: seq<string>)
    ensures selected == Pieces(entries, write, overhead, budget, 0)
  {
    selected := [];
    var used: nat := 0;
    var index := |entries|;
    assert entries[..|entries|] == entries;
    while index > 0
      invariant 0 <= index <= |entries|
      invariant Pieces(entries, write, overhead, budget, 0)
             == Pieces(entries[..index], write, overhead, budget, used) + selected
    {
      var entry := entries[index - 1];
      var remaining := budget - used - overhead(entry);
      if remaining <= 0 {
        break;
      }
      assert entries[..index] == entries[..index - 1] + [entry];
      PiecesStep(entries[..index - 1], entry, write, overhead, budget, used, selected);
      var piece := write(entry, remaining);
      selected := [piece] + selected;
      used := used + |piece| + 2;
      index := index - 1;
    }
  }

  /** The older entries for which there was no room. */
  function Unshown<T>(entries: seq<T>, write: (T, int) -> string, overhead: T -> nat, budget: nat, used: nat): seq<T> {
    if entries == [] then []
    else
      var last, front := entries[|entries| - 1], entries[..|entries| - 1];
      var room := budget - used - overhead(last);
      if room <= 0 then entries else Unshown(front, write, overhead, budget, used + |write(last, room)| + 2)
  }

  /** An entry is left out only when its label alone would fill what is left of the budget. */
  lemma {:induction false} StopsWhenFull<T>(entries: seq<T>, write: (T, int) -> string, overhead: T -> nat,
                                            budget: nat, used: nat)
    ensures var pieces := Pieces(entries, write, overhead, budget, used);
      var left := Unshown(entries, write, overhead, budget, used);
      && left <= entries && |left| + |pieces| == |entries|
      && (left != [] ==> used + Total(pieces) + overhead(left[|left| - 1]) >= budget)
  {
    if entries != [] {
      var last, front := entries[|entries| - 1], entries[..|entries| - 1];
      var room := budget - used - overhead(last);
      if room > 0 {
        var piece := write(last, room);
        var older := Pieces(front, write, overhead, budget, used + |piece| + 2);
        StopsWhenFull(front, write, overhead, budget, used + |piece| + 2);
        assert (older + [piece])[..|older|] == older;
      }
    }
  }

  function Mapped<T>(entries: seq<T>, full: T -> string): seq<string> {
    if entries == [] then [] else Mapped(entries[..|entries| - 1], full) + [full(entries[|entries| - 1])]
  }

  /** The entry is written in full when its room takes the full text. */
  ghost predicate WritesFull<T>(t: T, write: (T, int) -> string, overhead: T -> nat, full: T -> string) {
    && |full(t)| + 3 > overhead(t)
    && forall room | |full(t)| + 3 <= overhead(t) + room :: write(t, room) == full(t)
  }

  /** When there is room for all of them, every entry is written in full. */
  lemma {:induction false} AllFit<T>(entries: seq<T>, write: (T, int) -> string, overhead: T -> nat, full: T -> string,
                                     budget: nat, used: nat)
    requires forall t | t in entries :: WritesFull(t, write, overhead, full)
    requires entries != [] ==> used + Total(Mapped(entries, full)) + 1 <= budget
    ensures Pieces(entries, write, overhead, budget, used) == Mapped(entries, full)
  {
    if entries != [] {
      var last, front := entries[|entries| - 1], entries[..|entries| - 1];
      var older := Mapped(front, full);
      assert (older + [full(last)])[..|older|] == older;
      assert WritesFull(last, write, overhead, full);
      AllFit(front, write, overhead, full, budget, used + |full(last)| + 2);
    }
  }

  /**
   From the newest entry back each piece shows its entry in the room that the newer ones leave, until there is
   none; `kept` is what an entry takes besides its content, and every piece takes two more characters.
   */
  ghost predicate FromNewest<T>(pieces: seq<string>, entries: seq<T>, shows: (string, T, int) -> bool, kept: T -> nat,
                                budget: int, used: int)
  {
    if entries == [] then pieces == []
    else
      var m, n := |entries| - 1, |pieces| - 1;
      var room := budget - used - kept(entries[m]);
      if room <= 0 then pieces == []
      else
        && pieces != [] && shows(pieces[n], entries[m], room)
        && FromNewest(pieces[..n], entries[..m], shows, kept, budget, used + |pieces[n]| + 2)
  }

  lemma {:induction false} PiecesFromNewest<T(!new)>(entries: seq<T>, write: (T, int) -> string, overhead: T -> nat,
                                                     shows: (string, T, int) -> bool, kept: T -> nat, budget: nat, used: nat)
    requires forall t, room | room > 0 :: shows(write(t, room), t, room)
    requires forall t :: overhead(t) == kept(t)
    ensures FromNewest(Pieces(entries, write, overhead, budget, used), entries, shows, kept, budget, used)
  {
    if entries != [] {
      var last, front := entries[|entries| - 1], entries[..|entries| - 1];
      var room := budget - used - overhead(last);
      if room > 0 {
        var piece := write(last, room);
        var older := Pieces(front, write, overhead, budget, used + |piece| + 2);
        PiecesFromNewest(front, write, overhead, shows, kept, budget, used + |piece| + 2);
        assert (older + [piece])[..|older|] == older;
      }
    }
  }
}
