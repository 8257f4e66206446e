/**
 * Typing presence: how many OTHER connections on a student's notes channel
 * currently flag themselves as typing. The presence state is the channel's
 * snapshot as `Object.entries` lists it: one entry per presence key (a
 * client id), each with the metas tracked under that key.
 */
module SessionPresence {
  import opened Wrappers

  /** A tracked presence payload `{ typing?: boolean }`; None when `typing` is absent. */
  datatype Meta = Meta(typing: Option<bool>)

  type PresenceState = seq<(string, seq<Meta>)>

  /** The truthiness test `m.typing`. */
  predicate IsTyping(m: Meta) {
    m.typing == Some(true)
  }

  /** `.filter(([key]) => key !== self)` */
  function Others(state: PresenceState, self: string): (r: PresenceState)
    ensures |r| <= |state|
    ensures forall i :: 0 <= i < |r| ==> r[i].0 != self
    ensures forall i :: 0 <= i < |r| ==> r[i] in state
    ensures forall i :: 0 <= i < |state| && state[i].0 != self ==> state[i] in r
  {
    if state == [] then []
    else (if state[0].0 != self then [state[0]] else []) + Others(state[1..], self)
  }

  /** `.flatMap(([, arr]) => arr)` */
  function Flatten(state: PresenceState): seq<Meta> {
    if state == [] then [] else state[0].1 + Flatten(state[1..])
  }

  /** `.filter(m => m.typing)` */
  function TypingMetas(metas: seq<Meta>): (r: seq<Meta>)
    ensures |r| == CountTyping(metas)
    ensures forall i :: 0 <= i < |r| ==> IsTyping(r[i])
    ensures forall i :: 0 <= i < |r| ==> r[i] in metas
    ensures forall i :: 0 <= i < |metas| && IsTyping(metas[i]) ==> metas[i] in r
  {
    if metas == [] then []
    else (if IsTyping(metas[0]) then [metas[0]] else []) + TypingMetas(metas[1..])
  }

  /** The count the presence-sync handler stores in `peersTyping`. */
  function PeersTyping(state: PresenceState, self: string): (r: nat)
    ensures r == TypingPerPeer(state, self)
  {
    PipelineIsPerPeerSum(state, self);
    |TypingMetas(Flatten(Others(state, self)))|
  }

  /** Reference definition: the number of typing metas under one key. */
  function CountTyping(metas: seq<Meta>): nat {
    if metas == [] then 0 else (if IsTyping(metas[0]) then 1 else 0) + CountTyping(metas[1..])
  }

  /** Reference definition: sum, over the keys other than `self`, of their typing metas. */
  function TypingPerPeer(state: PresenceState, self: string): nat {
    if state == [] then 0
    else (if state[0].0 == self then 0 else CountTyping(state[0].1)) + TypingPerPeer(state[1..], self)
  }

  lemma {:induction false} TypingMetasAppend(a: seq<Meta>, b: seq<Meta>)
    ensures TypingMetas(a + b) == TypingMetas(a) + TypingMetas(b)
  {
    if a == [] {
      assert a + b == b;
    } else {
      assert (a + b)[1..] == a[1..] + b;
      TypingMetasAppend(a[1..], b);
    }
  }

  /** The filter/flatMap/filter pipeline counts exactly the typing metas of the other keys. */
  lemma {:induction false} PipelineIsPerPeerSum(state: PresenceState, self: string)
    ensures |TypingMetas(Flatten(Others(state, self)))| == TypingPerPeer(state, self)
  {
    if state != [] {
      PipelineIsPerPeerSum(state[1..], self);
      var head := if state[0].0 != self then [state[0]] else [];
      assert Others(state, self) == head + Others(state[1..], self);
      FlattenAppend(head, Others(state[1..], self));
      assert Flatten(head) == (if state[0].0 != self then state[0].1 else []) by {
        if state[0].0 != self {
          assert Flatten(head) == state[0].1 + Flatten([]);
        }
      }
      TypingMetasAppend(Flatten(head), Flatten(Others(state[1..], self)));
      if state[0].0 == self {
        assert Flatten(head) == [];
      }
    }
  }

  lemma {:induction false} FlattenAppend(a: PresenceState, b: PresenceState)
    ensures Flatten(a + b) == Flatten(a) + Flatten(b)
  {
    if a == [] {
      assert a + b == b;
    } else {
      assert (a + b)[1..] == a[1..] + b;
      FlattenAppend(a[1..], b);
    }
  }

  lemma {:induction false} OthersAppend(a: PresenceState, b: PresenceState, self: string)
    ensures Others(a + b, self) == Others(a, self) + Others(b, self)
  {
    if a == [] {
      assert a + b == b;
    } else {
      assert (a + b)[1..] == a[1..] + b;
      OthersAppend(a[1..], b, self);
    }
  }

  /** The client's own presence entry never counts, whatever it holds and wherever it sits. */
  lemma OwnEntryNeverCounts(a: PresenceState, b: PresenceState, self: string, mine: seq<Meta>)
    ensures PeersTyping(a + [(self, mine)] + b, self) == PeersTyping(a + b, self)
  {
    OthersAppend(a + [(self, mine)], b, self);
    OthersAppend(a, [(self, mine)], self);
    OthersAppend(a, b, self);
    assert Others([(self, mine)], self) == [];
    assert Others(a, self) + [] == Others(a, self);
  }

  /** A peer that starts typing under a fresh entry raises the count by one. */
  lemma PeerTypingRaisesCount(state: PresenceState, self: string, peer: string)
    requires peer != self
    ensures PeersTyping(state + [(peer, [Meta(Some(true))])], self) == PeersTyping(state, self) + 1
  {
    var extra: PresenceState := [(peer, [Meta(Some(true))])];
    OthersAppend(state, extra, self);
    assert Others(extra, self) == extra;
    FlattenAppend(Others(state, self), extra);
    var typed := [Meta(Some(true))];
    assert extra[1..] == [] && typed[1..] == [];
    assert Flatten(extra) == typed;
    TypingMetasAppend(Flatten(Others(state, self)), typed);
    assert TypingMetas(typed) == typed;
  }

  /** No key other than `self` has a typing meta exactly when the count is zero. */
  lemma {:induction false} NoPeerTypingIffZero(state: PresenceState, self: string)
    ensures PeersTyping(state, self) == 0 <==>
      forall i, j :: 0 <= i < |state| && state[i].0 != self && 0 <= j < |state[i].1| ==> !IsTyping(state[i].1[j])
  {
    PerPeerZero(state, self);
  }

  lemma {:induction false} CountTypingZero(metas: seq<Meta>)
    ensures CountTyping(metas) == 0 <==> forall j :: 0 <= j < |metas| ==> !IsTyping(metas[j])
  {
    if metas != [] {
      CountTypingZero(metas[1..]);
      assert forall j :: 1 <= j < |metas| ==> metas[j] == metas[1..][j - 1];
    }
  }

  lemma {:induction false} PerPeerZero(state: PresenceState, self: string)
    ensures TypingPerPeer(state, self) == 0 <==>
      forall i, j :: 0 <= i < |state| && state[i].0 != self && 0 <= j < |state[i].1| ==> !IsTyping(state[i].1[j])
  {
    if state != [] {
      PerPeerZero(state[1..], self);
      CountTypingZero(state[0].1);
      assert forall i :: 1 <= i < |state| ==> state[i] == state[1..][i - 1];
    }
  }
}
