/** The bounded set of recently seen clip IDs (internal/daemon/seen.go). */
module SeenSets {

  const SEEN_CAP: nat := 256

  /** The most recent SEEN_CAP entries of a log. */
  function Window(log: seq<string>): seq<string> {
    if |log| <= SEEN_CAP then log else log[|log| - SEEN_CAP..]
  }

  /** One add, on the insertion order alone. */
  function Recorded(order: seq<string>, id: string): seq<string> {
    if id in order then order
    else if |order| + 1 > SEEN_CAP then (order + [id])[1..]
    else order + [id]
  }

  /** The insertions that took effect, among all the add calls made: a call is
      without effect exactly when its ID is still among the last SEEN_CAP
      effective ones. */
  function Admitted(calls: seq<string>): seq<string> {
    if calls == [] then []
    else
      var before := Admitted(calls[..|calls| - 1]);
      var id := calls[|calls| - 1];
      if id in Window(before) then before else before + [id]
  }

  /** Any two occurrences of one ID lie more than SEEN_CAP entries apart. */
  ghost predicate Spaced(log: seq<string>) {
    forall i, j :: 0 <= i < j < |log| && j - i <= SEEN_CAP ==> log[i] != log[j]
  }

  lemma {:induction false} AdmittedIsSpaced(calls: seq<string>)
    ensures Spaced(Admitted(calls))
  {
    if calls != [] {
      var before := Admitted(calls[..|calls| - 1]);
      var id := calls[|calls| - 1];
      AdmittedIsSpaced(calls[..|calls| - 1]);
      if id !in Window(before) {
        forall i | 0 <= i < |before| && |before| - i <= SEEN_CAP
          ensures before[i] != id
        {
          assert before[i] == Window(before)[if |before| <= SEEN_CAP then i else i - (|before| - SEEN_CAP)];
        }
      }
    }
  }

  /** Recording on the window is the window of recording on the whole log. */
  lemma RecordedWindow(log: seq<string>, id: string)
    ensures Recorded(Window(log), id) == Window(if id in Window(log) then log else log + [id])
  {
    if id !in Window(log) {
      if |log| + 1 > SEEN_CAP {
        assert (Window(log) + [id])[|Window(log)| + 1 - SEEN_CAP..] == Window(log + [id]);
      }
    }
  }

  /** The window holds as many different IDs as it has entries. */
  lemma WindowDistinct(log: seq<string>)
    requires Spaced(log)
    ensures forall i, j :: 0 <= i < j < |Window(log)| ==> Window(log)[i] != Window(log)[j]
  {
    var d := if |log| <= SEEN_CAP then 0 else |log| - SEEN_CAP;
    forall i, j | 0 <= i < j < |Window(log)|
      ensures Window(log)[i] != Window(log)[j]
    {
      assert Window(log)[i] == log[i + d] && Window(log)[j] == log[j + d];
    }
  }

  lemma StaysInWindow(log: seq<string>, p: nat)
    requires p < |log| <= p + SEEN_CAP
    ensures log[p] in Window(log)
  {
    var d := if |log| <= SEEN_CAP then 0 else |log| - SEEN_CAP;
    assert Window(log)[p - d] == log[p];
  }

  /** If an ID recorded at position p has left the window, at least SEEN_CAP
      entries follow p; the SEEN_CAP entries right after p are pairwise different
      and none of them is that ID. */
  lemma EvictedAfterFullWindow(log: seq<string>, p: nat)
    requires Spaced(log) && p < |log| && log[p] !in Window(log)
    ensures p + SEEN_CAP < |log|
    ensures forall i :: p < i <= p + SEEN_CAP ==> log[i] != log[p]
    ensures forall i, j :: p < i < j <= p + SEEN_CAP ==> log[i] != log[j]
  {
    if |log| <= p + SEEN_CAP {
      StaysInWindow(log, p);
    }
  }

  function Ids(order: seq<string>): set<string> {
    set id | id in order
  }

  /** Appending to the order and, at the cap, dropping the oldest entry keeps
      the member set in step. */
  lemma IdsAfterAppend(order: seq<string>, id: string)
    requires id !in order
    requires forall i, j :: 0 <= i < j < |order| ==> order[i] != order[j]
    ensures Ids(order + [id]) == Ids(order) + {id}
    ensures Ids((order + [id])[1..]) == Ids(order) + {id} - {(order + [id])[0]}
  {
    var next := order + [id];
    assert next == [next[0]] + next[1..];
    assert forall x :: x in next <==> x == next[0] || x in next[1..];
    assert next[0] !in next[1..];
  }

  class SeenSet {
    var members: set<string>
    var order: seq<string>
    ghost var calls: seq<string>  // every add made so far

    ghost predicate Valid()
      reads this
    {
      && members == Ids(order)
      && order == Window(Admitted(calls))
    }

    constructor ()
      ensures Valid() && calls == [] && order == []
    {
      members := {};
      order := [];
      calls := [];
    }

    method Has(id: string) returns (found: bool)
      requires Valid()
      ensures found <==> id in Window(Admitted(calls))
    {
      found := id in members;
    }

    method Add(id: string)
      requires Valid()
      modifies this
      ensures Valid()
      ensures calls == old(calls) + [id]
      ensures order == Recorded(old(order), id)
    {
      RecordedWindow(Admitted(calls), id);
      assert (calls + [id])[..|calls|] == calls;
      AdmittedIsSpaced(calls);
      WindowDistinct(Admitted(calls));
      calls := calls + [id];
      if id in members {
        return;
      }
      IdsAfterAppend(order, id);
      members := members + {id};
      order := order + [id];
      if |order| > SEEN_CAP {
        var oldest := order[0];
        order := order[1..];
        members := members - {oldest};
      }
    }
  }

  /** The cap holds, and every member is counted once in the order. */
  lemma SizesAgree(calls: seq<string>)
    ensures |Ids(Window(Admitted(calls)))| == |Window(Admitted(calls))| <= SEEN_CAP
  {
    AdmittedIsSpaced(calls);
    WindowDistinct(Admitted(calls));
    CountDistinct(Window(Admitted(calls)));
  }

  lemma {:induction false} CountDistinct(s: seq<string>)
    requires forall i, j :: 0 <= i < j < |s| ==> s[i] != s[j]
    ensures |Ids(s)| == |s|
  {
    if s != [] {
      var front, last := s[..|s| - 1], s[|s| - 1];
      CountDistinct(front);
      assert Ids(s) == Ids(front) + {last};
    }
  }
}
