/**
 * Room fan-out: the loop at the heart of `broadcastToBoard` and
 * `broadcastToWorkspace`.
 */
module Broadcast {
  import opened Wrappers
  import opened Protocol
  import opened Connections
  import opened Identity

  /**
   * Who a broadcast reaches: room members whose transport is open and whose
   * user differs from the excluded one (no exclusion when `exclude` is None).
   */
  function Recipients(conns: map<ConnId, Conn>, members: set<ConnId>, exclude: Option<UserId>): set<ConnId>
  {
    set c | c in members && Eligible(conns, c, exclude)
  }

  /** The per-member test of the broadcast loop. */
  predicate Eligible(conns: map<ConnId, Conn>, c: ConnId, exclude: Option<UserId>)
  {
    c in conns && conns[c].open && (exclude.None? || conns[c].userId != exclude.value)
  }

  /**
   * `sent` sends `env` to each of `targets` and to no one else, and is exactly
   * as long as `targets` is large, so no target is sent it twice.
   */
  ghost predicate Delivers(sent: seq<Outgoing>, env: Envelope, targets: set<ConnId>)
  {
    && (forall i | 0 <= i < |sent| :: sent[i].Send? && sent[i].msg == env && sent[i].to in targets)
    && (forall c | c in targets :: Send(c, env) in sent)
    && |sent| == |targets|
  }

  /**
   * Walks the room's members one by one and sends the envelope to each
   * eligible one, in whatever order the set yields them.
   */
  method FanOut(conns: map<ConnId, Conn>, members: set<ConnId>, env: Envelope, exclude: Option<UserId>)
    returns (sent: seq<Outgoing>)
    ensures Delivers(sent, env, Recipients(conns, members, exclude))
  {
    ghost var targets := Recipients(conns, members, exclude);
    ghost var reached: set<ConnId> := {};
    sent := [];
    var todo := members;
    while todo != {}
      invariant todo <= members
      invariant reached == targets - todo
      invariant Delivers(sent, env, reached)
      decreases todo
    {
      var c :| c in todo;
      if Eligible(conns, c, exclude) {
        DeliversOneMore(sent, env, reached, c);
        sent := sent + [Send(c, env)];
        reached := reached + {c};
      }
      todo := todo - {c};
    }
  }

  /** Sending to one more target, not reached before, extends a delivery. */
  lemma DeliversOneMore(sent: seq<Outgoing>, env: Envelope, reached: set<ConnId>, c: ConnId)
    requires Delivers(sent, env, reached) && c !in reached
    ensures Delivers(sent + [Send(c, env)], env, reached + {c})
  {
    assert |reached + {c}| == |reached| + 1;
  }

  /** A broadcast that excludes a user reaches none of that user's sockets, not only the sender's. */
  lemma {:induction false} SenderNeverEchoed(sent: seq<Outgoing>, env: Envelope, conns: map<ConnId, Conn>, members: set<ConnId>, user: UserId)
    requires Delivers(sent, env, Recipients(conns, members, Some(user)))
    ensures forall i | 0 <= i < |sent| :: sent[i].to in conns && conns[sent[i].to].userId != user
  {
    forall i | 0 <= i < |sent|
      ensures sent[i].to in conns && conns[sent[i].to].userId != user
    {
      assert sent[i].to in Recipients(conns, members, Some(user));
    }
  }

  /** A broadcast to a room nobody is in sends nothing. */
  lemma AbsentRoomGetsNothing(sent: seq<Outgoing>, env: Envelope, conns: map<ConnId, Conn>, exclude: Option<UserId>)
    requires Delivers(sent, env, Recipients(conns, {}, exclude))
    ensures sent == []
  {
    assert Recipients(conns, {}, exclude) == {};
  }

  /** A closed socket receives nothing, whatever the room and exclusion. */
  lemma ClosedSocketSkipped(sent: seq<Outgoing>, env: Envelope, conns: map<ConnId, Conn>, members: set<ConnId>, exclude: Option<UserId>, c: ConnId)
    requires Delivers(sent, env, Recipients(conns, members, exclude))
    requires c in conns && !conns[c].open
    ensures Send(c, env) !in sent
  {
  }

  /**
   * Who a broadcast reaches depends only on each socket's open state and user,
   * not on its current rooms or liveness flag.
   */
  lemma RecipientsIgnoreSessionFields(conns: map<ConnId, Conn>, conns': map<ConnId, Conn>, members: set<ConnId>, exclude: Option<UserId>)
    requires conns.Keys == conns'.Keys
    requires forall c | c in conns :: conns'[c].open == conns[c].open && conns'[c].userId == conns[c].userId
    ensures Recipients(conns, members, exclude) == Recipients(conns', members, exclude)
  {
  }
}
