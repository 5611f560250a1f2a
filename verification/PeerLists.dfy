/** The raw peer list of a document: finding one peer and leaving the others alone. */
module PeerLists {
  import opened Wrappers
  import opened Jsons
  import opened Configs
  import opened PeerOps

  /** The peers with another id, in order. */
  function Others(peers: seq<Fields>, id: Txt): seq<Fields> {
    if peers == [] then []
    else (if StrAt(peers[0], Id) == id then [] else [peers[0]]) + Others(peers[1..], id)
  }

  /** The first peer with that id. */
  function PeerIn(peers: seq<Fields>, id: Txt): Option<Fields> {
    if peers == [] then None
    else if StrAt(peers[0], Id) == id then Some(peers[0])
    else PeerIn(peers[1..], id)
  }

  lemma {:induction false} OthersConcat(a: seq<Fields>, b: seq<Fields>, id: Txt)
    ensures Others(a + b, id) == Others(a, id) + Others(b, id)
  {
    if a == [] {
      assert a + b == b;
    } else {
      assert (a + b)[1..] == a[1..] + b;
      OthersConcat(a[1..], b, id);
    }
  }

  lemma {:induction false} OthersKeepRest(peers: seq<Fields>, id: Txt, p: Txt)
    requires p != id
    ensures PeerIn(Others(peers, id), p) == PeerIn(peers, p)
  {
    if peers != [] {
      OthersKeepRest(peers[1..], id, p);
      var rest := Others(peers[1..], id);
      assert ([peers[0]] + rest)[1..] == rest;
      assert [] + rest == rest;
    }
  }

  lemma SplitAt(peers: seq<Fields>, i: nat)
    requires i < |peers|
    ensures peers == peers[..i] + [peers[i]] + peers[i + 1..]
  {
  }

  lemma OthersOfThree(a: seq<Fields>, m: seq<Fields>, b: seq<Fields>, id: Txt)
    requires m == [] || (|m| == 1 && StrAt(m[0], Id) == id)
    ensures Others(a + m + b, id) == Others(a, id) + Others(b, id)
  {
    OthersConcat(a + m, b, id);
    OthersConcat(a, m, id);
    assert Others(m, id) == [];
    assert Others(a, id) + [] == Others(a, id);
  }

  lemma OthersReplaced(peers: seq<Fields>, i: nat, peer: Fields, id: Txt)
    requires i < |peers| && StrAt(peers[i], Id) == id && StrAt(peer, Id) == id
    ensures Others(peers[i := peer], id) == Others(peers, id)
    ensures Others(peers[..i] + peers[i + 1..], id) == Others(peers, id)
  {
    var a, b := peers[..i], peers[i + 1..];
    SplitAt(peers, i);
    assert peers[i := peer] == a + [peer] + b;
    assert a + b == a + [] + b;
    OthersOfThree(a, [peers[i]], b, id);
    OthersOfThree(a, [peer], b, id);
    OthersOfThree(a, [], b, id);
  }

  lemma OthersAdded(peers: seq<Fields>, peer: Fields, id: Txt)
    requires StrAt(peer, Id) == id
    ensures Others(peers + [peer], id) == Others(peers, id)
  {
    OthersConcat(peers, [peer], id);
  }

  lemma {:induction false} FindIsPeerIn(env: Env, peers: seq<Fields>, id: Txt, i: nat)
    requires i <= |peers| && FindFrom(env, peers, id, i).Ok?
    ensures FindFrom(env, peers, id, i).value.Some? ==> PeerIn(peers[i..], id) == Some(peers[FindFrom(env, peers, id, i).value.value])
    ensures FindFrom(env, peers, id, i).value.None? ==> PeerIn(peers[i..], id) == None
    decreases |peers| - i
  {
    if i < |peers| {
      assert peers[i..][1..] == peers[i + 1..];
      if StrAt(peers[i], Id) != id {
        FindIsPeerIn(env, peers, id, i + 1);
      }
    }
  }

  lemma {:induction false} PeerInReplaced(peers: seq<Fields>, i: nat, peer: Fields, id: Txt)
    requires i < |peers| && StrAt(peer, Id) == id && PeerIn(peers[..i], id).None?
    ensures PeerIn(peers[i := peer], id) == Some(peer)
  {
    if i > 0 {
      assert peers[i := peer][1..] == peers[1..][i - 1 := peer];
      assert peers[..i][1..] == peers[1..][..i - 1];
      PeerInReplaced(peers[1..], i - 1, peer, id);
    }
  }

  lemma {:induction false} PeerInAdded(peers: seq<Fields>, peer: Fields, id: Txt)
    requires StrAt(peer, Id) == id && PeerIn(peers, id).None?
    ensures PeerIn(peers + [peer], id) == Some(peer)
  {
    if peers != [] {
      assert (peers + [peer])[1..] == peers[1..] + [peer];
      PeerInAdded(peers[1..], peer, id);
    }
  }

  lemma {:induction false} PeerInNone(peers: seq<Fields>, id: Txt)
    ensures PeerIn(peers, id).None? <==> forall i :: 0 <= i < |peers| ==> StrAt(peers[i], Id) != id
  {
    if peers != [] {
      PeerInNone(peers[1..], id);
      assert forall i :: 0 < i < |peers| ==> peers[i] == peers[1..][i - 1];
      if PeerIn(peers, id).None? {
        forall i | 0 <= i < |peers|
          ensures StrAt(peers[i], Id) != id
        {
          assert i > 0 ==> StrAt(peers[1..][i - 1], Id) != id;
        }
      } else if StrAt(peers[0], Id) != id {
        var j :| 0 <= j < |peers[1..]| && StrAt(peers[1..][j], Id) == id;
        assert StrAt(peers[j + 1], Id) == id;
      }
    }
  }
}
