/** `FileBridge.call` of mt4_live.py as the loop it is, running over the mailbox of
    the Mailbox module while the Expert takes turns of its own between any two file
    operations. */
module FileBridge {
  import opened Wrappers
  import opened Mailbox

  /** How one exchange ends for its caller. */
  datatype Outcome = Text(reply: Reply) | TimedOut(withdrawal: Withdrawal) | OsError

  datatype Withdrawal = Withdrawn | Claimed | Locked

  /** What the world does during one exchange: the Expert's turn before each file
      operation, one turn per poll until the deadline, and the first file operation
      that hits a lasting permission error, if one does. */
  datatype World = World(
    beforeRes: seq<Action>, beforeReq: seq<Action>, beforeWrite: seq<Action>, polls: seq<seq<Action>>,
    beforeWithdraw: seq<Action>, afterRead: seq<Action>, afterRes: seq<Action>,
    failsAt: nat, locked: bool)

  /** A run of this one bridge from `m0` to `m1`. */
  ghost predicate Ran(m0: Mail, run: seq<Action>, m1: Mail) {
    Legal(m0, run) && SameLife(run) && After(m0, run) == m1
  }

  lemma RanNothing(m: Mail)
    ensures Ran(m, [], m)
  {
  }

  lemma RanOneMore(m0: Mail, run: seq<Action>, m1: Mail, a: Action)
    requires Ran(m0, run, m1) && Enabled(m1, a) && !a.BridgeCrash?
    ensures Ran(m0, run + [a], Apply(m1, a))
  {
    OneStep(m1, a);
    LegalConcat(m0, run, [a]);
  }

  // ----- what the caller gets, by what the Expert does ------------------------------------

  /** The mailbox after a turn of the Expert. */
  function Turned(m: Mail, turn: seq<Action>): (r: Mail)
    ensures r.pc == m.pc && r.calls == m.calls && r.n == m.n && r.returned == m.returned
    decreases |turn|
  {
    if turn == [] then m
    else Turned(if ByExpert(turn[0]) && Enabled(m, turn[0]) then Apply(m, turn[0]) else m, turn[1..])
  }

  /** The three file operations of a publication, the Expert's turns between them. */
  function Published(m: Mail, world: World): (r: Mail)
    requires m.pc.ClearRes?
    ensures r.pc == Poll(m.pc.r)
  {
    Apply(Turned(Apply(Turned(Apply(Turned(m, world.beforeRes), RemoveRes), world.beforeReq), RemoveReq), world.beforeWrite),
          Publish)
  }

  /** The mailbox once the request of a call is published. */
  function Posted(m: Mail, key: Option<string>, world: World): (r: Mail)
    requires m.pc.Ready?
    ensures r.pc == Poll(Req(|m.calls|, m.n + 1, key))
  {
    Published(Apply(m, Action.Call(key)), world)
  }

  /** The mailbox at poll `i`. */
  function AtPoll(m: Mail, polls: seq<seq<Action>>, i: nat): (r: Mail)
    requires i <= |polls|
    ensures r.pc == m.pc && r.calls == m.calls && r.n == m.n && r.returned == m.returned
    decreases i
  {
    if i == 0 then m else Turned(AtPoll(m, polls, i - 1), polls[i - 1])
  }

  predicate Shows(m: Mail, id: nat) { m.res.Some? && m.res.value.id == id }

  /** At some poll the shared reply carries this id. */
  ghost predicate Seen(posted: Mail, polls: seq<seq<Action>>, id: nat) {
    exists i :: 0 <= i < |polls| && Shows(AtPoll(posted, polls, i), id)
  }

  /** The polls of a call see a reply with its own id. */
  ghost predicate Answered(m: Mail, key: Option<string>, world: World)
    requires m.pc.Ready?
  {
    Seen(Posted(m, key, world), world.polls, m.n + 1)
  }

  /** The mailbox when the bridge gives up. */
  function GivenUp(posted: Mail, world: World): Mail
    requires posted.pc.Poll?
  {
    Turned(Apply(AtPoll(posted, world.polls, |world.polls|), GiveUp), world.beforeWithdraw)
  }

  lemma OneTurn(m: Mail, a: Action, rest: seq<Action>)
    requires ByExpert(a) && Enabled(m, a)
    ensures Turned(m, [a] + rest) == Turned(Apply(m, a), rest)
  {
    assert ([a] + rest)[0] == a && ([a] + rest)[1..] == rest;
  }

  /** One turn in which the Expert takes the request, executes it and answers. */
  lemma PromptTurn(m: Mail)
    requires m.req.Some? && m.claimed.None? && m.out.None?
    ensures Shows(Turned(m, [Claim, Execute, Deliver]), m.req.value.id)
  {
    hide Turned;
    OneTurn(m, Claim, [Execute, Deliver]);
    var m1 := Apply(m, Claim);
    OneTurn(m1, Execute, [Deliver]);
    var m2 := Apply(m1, Execute);
    OneTurn(m2, Deliver, []);
    var m3 := Apply(m2, Deliver);
    assert [Claim, Execute, Deliver] == [Claim] + [Execute, Deliver] && [Execute, Deliver] == [Execute] + [Deliver];
    assert [Deliver] == [Deliver] + [];
    NoTurn(m3);
  }

  lemma NoTurn(m: Mail)
    ensures Turned(m, []) == m
  {
  }

  lemma QuietPost(m: Mail, key: Option<string>, world: World)
    requires m.pc.Ready? && m.claimed.None? && m.out.None?
    requires world.beforeRes == world.beforeReq == world.beforeWrite == []
    ensures var posted := Posted(m, key, world);
            posted.req == Some(Req(|m.calls|, m.n + 1, key)) && posted.claimed.None? && posted.out.None?
  {
  }

  /** It is heard, whatever stale reply was there. */
  lemma PromptAnswer(m: Mail, key: Option<string>, world: World)
    requires m.pc.Ready? && m.claimed.None? && m.out.None?
    requires world.beforeRes == world.beforeReq == world.beforeWrite == []
    requires |world.polls| >= 2 && world.polls[0] == [Claim, Execute, Deliver]
    ensures Answered(m, key, world)
  {
    QuietPost(m, key, world);
    hide Posted, Turned, Shows;
    var posted := Posted(m, key, world);
    PromptTurn(posted);
    assert AtPoll(posted, world.polls, 0) == posted;
    assert AtPoll(posted, world.polls, 1) == Turned(posted, world.polls[0]);
  }

  lemma {:induction false} SilentTurn(m: Mail, turn: seq<Action>)
    requires m.res.None? && forall i :: 0 <= i < |turn| ==> !turn[i].Deliver?
    ensures Turned(m, turn).res.None?
    decreases |turn|
  {
    if turn != [] {
      SilentTurn(if ByExpert(turn[0]) && Enabled(m, turn[0]) then Apply(m, turn[0]) else m, turn[1..]);
    }
  }

  lemma {:induction false} SilentPolls(m: Mail, polls: seq<seq<Action>>, i: nat)
    requires i <= |polls| && m.res.None?
    requires forall j, k :: 0 <= j < |polls| && 0 <= k < |polls[j]| ==> !polls[j][k].Deliver?
    ensures AtPoll(m, polls, i).res.None?
  {
    if i > 0 {
      SilentPolls(m, polls, i - 1);
      SilentTurn(AtPoll(m, polls, i - 1), polls[i - 1]);
    }
  }

  /** An Expert that delivers nothing once the stale reply was removed is not heard. */
  lemma SilenceIsNoAnswer(m: Mail, key: Option<string>, world: World)
    requires m.pc.Ready?
    requires forall k :: 0 <= k < |world.beforeReq| ==> !world.beforeReq[k].Deliver?
    requires forall k :: 0 <= k < |world.beforeWrite| ==> !world.beforeWrite[k].Deliver?
    requires forall j, k :: 0 <= j < |world.polls| && 0 <= k < |world.polls[j]| ==> !world.polls[j][k].Deliver?
    ensures !Answered(m, key, world)
  {
    var m1 := Turned(Apply(m, Action.Call(key)), world.beforeRes);
    SilentTurn(Apply(m1, RemoveRes), world.beforeReq);
    var m2 := Turned(Apply(m1, RemoveRes), world.beforeReq);
    SilentTurn(Apply(m2, RemoveReq), world.beforeWrite);
    forall i | 0 <= i < |world.polls| ensures !Shows(AtPoll(Posted(m, key, world), world.polls, i), m.n + 1) {
      SilentPolls(Posted(m, key, world), world.polls, i);
    }
  }

  class FileBridge {
    /** The bridge's counter and current request, the two shared files, and the
        Expert's side of the mailbox. */
    var m: Mail

    constructor (found: Mail)
      requires found.pc.Ready? && found.n == 0
      ensures m == found
    {
      m := found;
    }

    /** The Expert acts as far as it can. */
    method ExpertTurn(turn: seq<Action>, ghost m0: Mail, ghost run: seq<Action>) returns (ghost longer: seq<Action>)
      requires Ran(m0, run, m)
      modifies this
      ensures Ran(m0, longer, m) && m == Turned(old(m), turn)
    {
      longer := run;
      var i := 0;
      while i < |turn|
        invariant 0 <= i <= |turn|
        invariant Ran(m0, longer, m) && Turned(m, turn[i..]) == Turned(old(m), turn)
      {
        assert turn[i..][0] == turn[i] && turn[i..][1..] == turn[i + 1..];
        if ByExpert(turn[i]) && Enabled(m, turn[i]) {
          longer := Advance(turn[i], m0, longer);
        }
        i := i + 1;
      }
      assert turn[i..] == [];
    }

    /** One step of the machine. */
    method Advance(a: Action, ghost m0: Mail, ghost run: seq<Action>) returns (ghost longer: seq<Action>)
      requires Ran(m0, run, m) && Enabled(m, a) && !a.BridgeCrash?
      modifies this
      ensures m == Apply(old(m), a) && longer == run + [a] && Ran(m0, longer, m)
    {
      RanOneMore(m0, run, m, a);
      m := Apply(m, a);
      longer := run + [a];
    }

    /** `_exchange`: clear the reply, clear the request, publish, poll until the reply
        with this request's id is there, and take the request back at the deadline.
        A text goes to the caller only with its own id, and it is the reply to this
        very request when nothing foreign was in flight; what a timeout reports is
        what became of the request. */
    method Call(key: Option<string>, world: World) returns (outcome: Outcome, ghost run: seq<Action>)
      requires m.pc.Ready? && Inv(m) && Numbered(m)
      modifies this
      ensures Ran(old(m), run, m) && m.pc.Ready? && Inv(m) && Numbered(m)
      ensures m.n == old(m.n) + 1 && m.calls == old(m.calls) + [Req(|old(m.calls)|, old(m.n) + 1, key)]
      ensures match outcome
              case Text(reply) =>
                && m.returned == old(m.returned) + [(m.calls[|old(m.calls)|], reply)] && reply.id == m.n
                && (NothingForeign(old(m)) ==> reply.uid == |old(m.calls)|)
              case TimedOut(Withdrawn) =>
                m.returned == old(m.returned) && |old(m.calls)| in m.withdrawn && |old(m.calls)| !in m.taken
              case TimedOut(Claimed) => m.returned == old(m.returned) && |old(m.calls)| in m.taken
              case TimedOut(Locked) =>
                m.returned == old(m.returned) && m.req == Some(m.calls[|old(m.calls)|]) && |old(m.calls)| !in m.taken
              case OsError => m.returned == old(m.returned)
      ensures outcome.OsError? <==>
                1 <= world.failsAt <= 3 || (4 <= world.failsAt <= 5 && Answered(old(m), key, world))
      ensures outcome.Text? ==> Answered(old(m), key, world)
      ensures outcome.TimedOut? ==>
                && !Answered(old(m), key, world)
                && outcome.withdrawal == (if GivenUp(Posted(old(m), key, world), world).req.None? then Claimed
                                          else if world.locked then Locked else Withdrawn)
    {
      hide Inv, Numbered, Seen, GivenUp, Published, NothingForeign;
      ghost var m0 := m;
      RanNothing(m);
      run := Advance(Action.Call(key), m0, []);
      outcome, run := Exchange(world, m0, run);
      RunKeepsInv(m0, run);
      RunKeepsNumbered(m0, run);
      if NothingForeign(m0) {
        RepliesAreOwn(m0, run, |m0.returned|);
        assert outcome.Text? ==> m.returned[|m0.returned|] == (m.calls[|m0.calls|], outcome.reply);
      }
    }

    /** The request is made: publish it, poll, and take it back at the deadline. */
    method Exchange(world: World, ghost m0: Mail, ghost run: seq<Action>) returns (outcome: Outcome, ghost longer: seq<Action>)
      requires Inv(m0) && Ran(m0, run, m) && m.pc.ClearRes?
      modifies this
      ensures Ran(m0, longer, m) && m.pc.Ready? && m.calls == old(m.calls) && m.n == old(m.n)
      ensures m.returned == if outcome.Text? then old(m.returned) + [(old(m.pc).r, outcome.reply)] else old(m.returned)
      ensures var posted := Published(old(m), world);
              var seen := Seen(posted, world.polls, old(m.pc).r.id);
              && (outcome.OsError? <==> 1 <= world.failsAt <= 3 || (4 <= world.failsAt <= 5 && seen))
              && (outcome.Text? ==> seen && outcome.reply.id == old(m.pc).r.id)
              && (outcome.TimedOut? ==>
                    && !seen
                    && outcome.withdrawal ==
                       (if GivenUp(posted, world).req.None? then Claimed else if world.locked then Locked else Withdrawn)
                    && match outcome.withdrawal
                       case Withdrawn => old(m.pc).r.uid in m.withdrawn && old(m.pc).r.uid !in m.taken
                       case Claimed => old(m.pc).r.uid in m.taken
                       case Locked => m.req == Some(old(m.pc).r) && old(m.pc).r.uid !in m.taken)
    {
      hide Inv;
      var ok, found, w;
      ok, longer := Post(world, m0, run);
      if !ok {
        return OsError, longer;
      }
      found, longer := PollForReply(world.polls, m0, longer);
      if found {
        outcome, longer := TakeReply(world, m0, longer);
        return;
      }
      longer := Advance(GiveUp, m0, longer);
      longer := ExpertTurn(world.beforeWithdraw, m0, longer);
      RunKeepsInv(m0, longer);
      w, longer := WithdrawRequest(world.locked, m0, longer);
      outcome := TimedOut(w);
    }

    /** A file operation that goes through, or the error that ends the call. */
    method Operation(a: Action, fails: bool, turn: seq<Action>, ghost m0: Mail, ghost run: seq<Action>)
        returns (ok: bool, ghost longer: seq<Action>)
      requires Ran(m0, run, m) && a in {RemoveRes, RemoveReq, Publish} && Enabled(m, a)
      modifies this
      ensures Ran(m0, longer, m) && ok == !fails
      ensures m == Apply(Turned(old(m), turn), if fails then FileError else a)
    {
      longer := ExpertTurn(turn, m0, run);
      ok := !fails;
      if fails {
        longer := Advance(FileError, m0, longer);
      } else {
        longer := Advance(a, m0, longer);
      }
    }

    method Post(world: World, ghost m0: Mail, ghost run: seq<Action>) returns (ok: bool, ghost longer: seq<Action>)
      requires Ran(m0, run, m) && m.pc.ClearRes?
      modifies this
      ensures Ran(m0, longer, m) && (if ok then m.pc == Poll(old(m.pc).r) else m.pc.Ready?)
      ensures m.calls == old(m.calls) && m.n == old(m.n) && m.returned == old(m.returned)
      ensures ok <==> !(1 <= world.failsAt <= 3)
      ensures ok ==>
                m == Published(old(m), world)
    {
      ok, longer := Operation(RemoveRes, world.failsAt == 1, world.beforeRes, m0, run);
      if ok {
        ok, longer := Operation(RemoveReq, world.failsAt == 2, world.beforeReq, m0, longer);
      }
      if ok {
        ok, longer := Operation(Publish, world.failsAt == 3, world.beforeWrite, m0, longer);
      }
    }

    /** Look, then let the Expert work; a reply with another id is left alone. */
    method PollForReply(polls: seq<seq<Action>>, ghost m0: Mail, ghost run: seq<Action>)
        returns (found: bool, ghost longer: seq<Action>)
      requires Ran(m0, run, m) && m.pc.Poll?
      modifies this
      ensures Ran(m0, longer, m)
      ensures if found then m.pc.GotRes? && m.pc.r == old(m.pc).r && m.pc.reply.id == m.pc.r.id
              else m == AtPoll(old(m), polls, |polls|)
      ensures found <==> Seen(old(m), polls, old(m).pc.r.id)
      ensures m.calls == old(m.calls) && m.n == old(m.n) && m.returned == old(m.returned)
    {
      found, longer := false, run;
      var i := 0;
      while i < |polls|
        invariant 0 <= i <= |polls|
        invariant Ran(m0, longer, m) && m == AtPoll(old(m), polls, i)
        invariant forall j :: 0 <= j < i ==> !Shows(AtPoll(old(m), polls, j), old(m).pc.r.id)
      {
        if m.res.Some? && m.res.value.id == m.pc.r.id {
          assert Shows(AtPoll(old(m), polls, i), old(m).pc.r.id);
          longer := Advance(Match, m0, longer);
          found := true;
          return;
        }
        longer := ExpertTurn(polls[i], m0, longer);
        i := i + 1;
      }
    }

    /** Both files are cleaned up before the text is handed over. */
    method TakeReply(world: World, ghost m0: Mail, ghost run: seq<Action>) returns (outcome: Outcome, ghost longer: seq<Action>)
      requires Ran(m0, run, m) && m.pc.GotRes?
      modifies this
      ensures Ran(m0, longer, m) && m.pc.Ready? && m.calls == old(m.calls) && m.n == old(m.n)
      ensures outcome == if 4 <= world.failsAt <= 5 then OsError else Text(old(m.pc).reply)
      ensures m.returned == if outcome.Text? then old(m.returned) + [(old(m.pc).r, old(m.pc).reply)] else old(m.returned)
    {
      var reply := m.pc.reply;
      var ok;
      ok, longer := Operation(RemoveRes, world.failsAt == 4, world.afterRead, m0, run);
      if ok {
        ok, longer := Operation(RemoveReq, world.failsAt == 5, world.afterRes, m0, longer);
      }
      outcome := if ok then Text(reply) else OsError;
    }

    /** `_withdraw`: the answer is what the removal itself says. */
    method WithdrawRequest(locked: bool, ghost m0: Mail, ghost run: seq<Action>) returns (w: Withdrawal, ghost longer: seq<Action>)
      requires Ran(m0, run, m) && m.pc.Withdraw? && Inv(m)
      modifies this
      ensures Ran(m0, longer, m) && m.pc.Ready? && m.calls == old(m.calls) && m.n == old(m.n) && m.returned == old(m.returned)
      ensures match w
              case Withdrawn => old(m.pc).r.uid in m.withdrawn && old(m.pc).r.uid !in m.taken
              case Claimed => old(m.pc).r.uid in m.taken
              case Locked => m.req == Some(old(m.pc).r) && old(m.pc).r.uid !in m.taken
      ensures w == if old(m).req.None? then Claimed else if locked then Locked else Withdrawn
    {
      if m.req.None? {
        w := Claimed;
        longer := Advance(WithdrawGone, m0, run);
      } else if locked {
        w := Locked;
        longer := Advance(WithdrawLocked, m0, run);
      } else {
        w := Withdrawn;
        longer := Advance(WithdrawHit, m0, run);
      }
    }
  }
}
