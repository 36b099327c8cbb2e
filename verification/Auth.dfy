/** ctl/auth.py `JoinAuthManager`: nonce challenges, join tokens and their lifetimes. */
module Auth {
  import opened Contracts

  datatype Challenge = Challenge(nodeId: string, expiresAt: real)
  datatype Token = Token(access: string, expiresAt: real)
  datatype State = State(challenges: map<string, Challenge>, tokens: map<string, Token>)
  datatype Config = Config(challengeTtl: real, tokenTtl: real) {
    predicate Valid() { challengeTtl > 0.0 && tokenTtl > 0.0 }
  }

  datatype Error = BlankId | NoNodeId | InvalidChallenge | ChallengeExpired | InvalidSignature

  function Pruned(challenges: map<string, Challenge>, now: real): map<string, Challenge> {
    map k | k in challenges && challenges[k].expiresAt >= now :: challenges[k]
  }

  function DoIssue(c: Config, s: State, id: string, nonce: string, now: real): State {
    if Blank(id) then s
    else s.(challenges := Pruned(s.challenges, now)[nonce := Challenge(id, now + c.challengeTtl)])
  }

  /** Why `complete_join` refuses, if it does; `signed` is the verdict of the HMAC check. */
  function JoinError(s: State, id: Option<string>, nonce: string, signed: bool, now: real): Option<Error> {
    if id.None? || id.value == "" then Some(NoNodeId)
    else if nonce !in s.challenges || s.challenges[nonce].nodeId != id.value then Some(InvalidChallenge)
    else if now > s.challenges[nonce].expiresAt then Some(ChallengeExpired)
    else if !signed then Some(InvalidSignature)
    else None
  }

  function DoJoin(c: Config, s: State, id: Option<string>, nonce: string, signed: bool, access: string, now: real): State {
    match JoinError(s, id, nonce, signed, now)
    case None =>
      if id.None? then s
      else State(s.challenges - {nonce}, s.tokens[id.value := Token(access, now + c.tokenTtl)])
    case Some(ChallengeExpired) => s.(challenges := s.challenges - {nonce})
    case Some(_) => s
  }

  predicate Accepts(s: State, id: string, access: string, now: real) {
    id in s.tokens && now <= s.tokens[id].expiresAt && s.tokens[id].access == access
  }

  function DoValidate(s: State, id: string, now: real): State {
    if id in s.tokens && now > s.tokens[id].expiresAt then s.(tokens := s.tokens - {id}) else s
  }

  function DoRevoke(s: State, id: string): State {
    State(map k | k in s.challenges && s.challenges[k].nodeId != id :: s.challenges[k], s.tokens - {id})
  }

  datatype SetupError = EmptySecret | BadChallengeTtl | BadTokenTtl

  /** Creating a manager: what `__init__` refuses, in its order. */
  method Open(poolSecret: string, challengeTtl: real, tokenTtl: real) returns (r: Result<JoinAuthManager, SetupError>)
    ensures r == Err(EmptySecret) <==> poolSecret == ""
    ensures r == Err(BadChallengeTtl) <==> poolSecret != "" && challengeTtl <= 0.0
    ensures r == Err(BadTokenTtl) <==> poolSecret != "" && challengeTtl > 0.0 && tokenTtl <= 0.0
    ensures r.Ok? <==> poolSecret != "" && challengeTtl > 0.0 && tokenTtl > 0.0
    ensures r.Ok? ==>
              r.value.config == Config(challengeTtl, tokenTtl) && r.value.View() == State(map[], map[]) && fresh(r.value)
  {
    if poolSecret == "" { return Err(EmptySecret); }
    if challengeTtl <= 0.0 { return Err(BadChallengeTtl); }
    if tokenTtl <= 0.0 { return Err(BadTokenTtl); }
    var manager := new JoinAuthManager(Config(challengeTtl, tokenTtl));
    return Ok(manager);
  }

  class JoinAuthManager {
    const config: Config
    var challenges: map<string, Challenge>
    var tokens: map<string, Token>

    ghost function View(): State
      reads this
    {
      State(challenges, tokens)
    }

    constructor (config: Config)
      requires config.Valid()
      ensures this.config == config && View() == State(map[], map[])
    {
      this.config := config;
      challenges, tokens := map[], map[];
    }

    /** `nonce` is what the token factory returns, `now` what the clock returns. */
    method IssueChallenge(id: string, nonce: string, now: real) returns (r: Result<Challenge, Error>)
      modifies this
      ensures View() == DoIssue(config, old(View()), id, nonce, now)
      ensures r == if Blank(id) then Err(BlankId) else Ok(Challenge(id, now + config.challengeTtl))
    {
      if Blank(id) { return Err(BlankId); }
      challenges := Pruned(challenges, now);
      var challenge := Challenge(id, now + config.challengeTtl);
      challenges := challenges[nonce := challenge];
      return Ok(challenge);
    }

    method CompleteJoin(id: Option<string>, nonce: string, signed: bool, access: string, now: real)
      returns (r: Result<Token, Error>)
      modifies this
      ensures View() == DoJoin(config, old(View()), id, nonce, signed, access, now)
      ensures match JoinError(old(View()), id, nonce, signed, now)
              case Some(e) => r == Err(e)
              case None => r == Ok(Token(access, now + config.tokenTtl))
      ensures r == Err(InvalidSignature) ==> View() == old(View())
      ensures r == Err(NoNodeId) <==> id.None? || id.value == ""
      ensures id.Some? && id.value != "" ==>
                var open := nonce in old(challenges) && old(challenges)[nonce].nodeId == id.value;
                && (r == Err(InvalidChallenge) <==> !open)
                && (r == Err(ChallengeExpired) <==> open && old(challenges)[nonce].expiresAt < now)
                && (r == Err(InvalidSignature) <==> open && now <= old(challenges)[nonce].expiresAt && !signed)
    {
      if id.None? || id.value == "" { return Err(NoNodeId); }
      if nonce !in challenges || challenges[nonce].nodeId != id.value { return Err(InvalidChallenge); }
      if now > challenges[nonce].expiresAt {
        challenges := challenges - {nonce};
        return Err(ChallengeExpired);
      }
      if !signed { return Err(InvalidSignature); }
      challenges := challenges - {nonce};
      var token := Token(access, now + config.tokenTtl);
      tokens := tokens[id.value := token];
      return Ok(token);
    }

    method ValidateToken(id: string, access: string, now: real) returns (ok: bool)
      modifies this
      ensures ok <==> Accepts(old(View()), id, access, now)
      ensures View() == DoValidate(old(View()), id, now)
    {
      if id !in tokens { return false; }
      if now > tokens[id].expiresAt {
        tokens := tokens - {id};
        return false;
      }
      return tokens[id].access == access;
    }

    method Revoke(id: string)
      modifies this
      ensures View() == DoRevoke(old(View()), id)
    {
      challenges := map k | k in challenges && challenges[k].nodeId != id :: challenges[k];
      tokens := tokens - {id};
    }
  }
}

/** What every run of the join manager keeps, told against the history of the run. */
module AuthRuns {
  import opened Contracts
  import opened Auth

  datatype Call =
    | Issue(at: real, id: string, nonce: string)
    | Join(at: real, node: Option<string>, nonce: string, signed: bool, access: string)
    | Validate(at: real, id: string, access: string)
    | Revoke(at: real, id: string)

  /** What happened, as a caller sees it: challenges handed out, joins granted, revocations. */
  datatype Event =
    | Issued(at: real, id: string, nonce: string)
    | Joined(at: real, id: string, nonce: string, access: string)
    | Revoked(at: real, id: string)

  datatype World = World(state: State, clock: real, log: seq<Event>)

  /** Time does not run backwards and the token factory never repeats a nonce. */
  ghost predicate Enabled(w: World, call: Call) {
    && w.clock <= call.at
    && (call.Issue? ==> forall i :: 0 <= i < |w.log| && w.log[i].Issued? ==> w.log[i].nonce != call.nonce)
  }

  function Happens(w: World, call: Call): seq<Event> {
    match call
    case Issue(at, id, nonce) => if Blank(id) then [] else [Issued(at, id, nonce)]
    case Join(at, node, nonce, signed, access) =>
      if node.None? || JoinError(w.state, node, nonce, signed, at).Some? then []
      else [Joined(at, node.value, nonce, access)]
    case Validate(_, _, _) => []
    case Revoke(at, id) => [Revoked(at, id)]
  }

  function Step(c: Config, w: World, call: Call): World {
    var state := match call
      case Issue(at, id, nonce) => DoIssue(c, w.state, id, nonce, at)
      case Join(at, node, nonce, signed, access) => DoJoin(c, w.state, node, nonce, signed, access, at)
      case Validate(at, id, _) => DoValidate(w.state, id, at)
      case Revoke(_, id) => DoRevoke(w.state, id);
    World(state, call.at, w.log + Happens(w, call))
  }

  predicate Spends(e: Event, issued: Event) {
    || (e.Joined? && issued.Issued? && e.nonce == issued.nonce)
    || (e.Revoked? && e.id == issued.id)
  }

  /** The event at position `i` issued a challenge neither used nor revoked since. */
  predicate Unspent(log: seq<Event>, i: nat)
    requires i < |log|
  {
    log[i].Issued? && forall j :: i < j < |log| ==> !Spends(log[j], log[i])
  }

  /** The event at position `i` is its node's latest join, and no revocation followed. */
  predicate Latest(log: seq<Event>, i: nat)
    requires i < |log|
  {
    log[i].Joined? && forall j :: i < j < |log| && (log[j].Joined? || log[j].Revoked?) ==> log[j].id != log[i].id
  }

  predicate Holds(c: Config, s: State, e: Event)
    requires e.Issued?
  {
    e.nonce in s.challenges && s.challenges[e.nonce] == Challenge(e.id, e.at + c.challengeTtl)
  }

  predicate Grants(c: Config, s: State, e: Event)
    requires e.Joined?
  {
    e.id in s.tokens && s.tokens[e.id] == Token(e.access, e.at + c.tokenTtl)
  }

  /** Every stored challenge comes from an unspent one in the log. */
  ghost predicate ChallengesBacked(c: Config, w: World) {
    forall k :: k in w.state.challenges ==>
      exists i :: 0 <= i < |w.log| && Unspent(w.log, i) && w.log[i].nonce == k && Holds(c, w.state, w.log[i])
  }

  /** An unspent challenge that has not expired is still stored. */
  ghost predicate ChallengesStored(c: Config, w: World) {
    forall i :: (0 <= i < |w.log| && Unspent(w.log, i) && w.clock <= w.log[i].at + c.challengeTtl) ==>
      Holds(c, w.state, w.log[i])
  }

  ghost predicate TokensBacked(c: Config, w: World) {
    forall id :: id in w.state.tokens ==>
      exists i :: 0 <= i < |w.log| && Latest(w.log, i) && w.log[i].id == id && Grants(c, w.state, w.log[i])
  }

  ghost predicate TokensStored(c: Config, w: World) {
    forall i :: (0 <= i < |w.log| && Latest(w.log, i) && w.clock <= w.log[i].at + c.tokenTtl) ==>
      Grants(c, w.state, w.log[i])
  }

  ghost predicate NoncesOnce(log: seq<Event>) {
    forall i, j :: 0 <= i < j < |log| && log[i].Issued? && log[j].Issued? ==> log[i].nonce != log[j].nonce
  }

  /** The join at `j` answers the challenge at `i`: same node and nonce, in time, first use, not
      revoked in between. */
  ghost predicate Answers(c: Config, log: seq<Event>, i: nat, j: nat)
    requires i < |log| && j < |log|
  {
    && i < j && log[i].Issued? && log[j].Joined?
    && log[i].id == log[j].id && log[i].nonce == log[j].nonce
    && log[j].at <= log[i].at + c.challengeTtl
    && Unspent(log[..j], i)
  }

  ghost predicate JoinsAnswer(c: Config, log: seq<Event>) {
    forall j :: 0 <= j < |log| && log[j].Joined? ==> exists i :: 0 <= i < |log| && Answers(c, log, i, j)
  }

  ghost predicate Inv(c: Config, w: World) {
    && ChallengesBacked(c, w) && ChallengesStored(c, w) && TokensBacked(c, w) && TokensStored(c, w)
    && NoncesOnce(w.log) && JoinsAnswer(c, w.log)
  }

  lemma {:induction false} UnspentGrows(log: seq<Event>, more: seq<Event>, i: nat)
    requires i < |log| && |more| <= 1
    ensures Unspent(log + more, i) <==>
      (Unspent(log, i) && (more == [] || !Spends(more[0], log[i])))
  {
    var after := log + more;
    assert forall j :: 0 <= j < |log| ==> after[j] == log[j];
    assert more != [] ==> after[|log|] == more[0];
  }

  lemma {:induction false} LatestGrows(log: seq<Event>, more: seq<Event>, i: nat)
    requires i < |log| && |more| <= 1
    ensures Latest(log + more, i) <==>
      (Latest(log, i) && (more == [] || more[0].Issued? || more[0].id != log[i].id))
  {
    var after := log + more;
    assert forall j :: 0 <= j < |log| ==> after[j] == log[j];
    assert more != [] ==> after[|log|] == more[0];
  }

  lemma {:induction false} ChallengesBackedKept(c: Config, w: World, call: Call)
    requires Inv(c, w) && Enabled(w, call)
    ensures ChallengesBacked(c, Step(c, w, call))
  {
    var v, more := Step(c, w, call), Happens(w, call);
    forall k | k in v.state.challenges
      ensures exists i :: 0 <= i < |v.log| && Unspent(v.log, i) && v.log[i].nonce == k && Holds(c, v.state, v.log[i])
    {
      if call.Issue? && !Blank(call.id) && k == call.nonce {
        assert v.log[|w.log|] == more[0];
        assert Unspent(v.log, |w.log|);
      } else {
        assert k in w.state.challenges && v.state.challenges[k] == w.state.challenges[k];
        var i :| 0 <= i < |w.log| && Unspent(w.log, i) && w.log[i].nonce == k && Holds(c, w.state, w.log[i]);
        UnspentGrows(w.log, more, i);
        assert v.log[i] == w.log[i];
        assert Unspent(v.log, i);
      }
    }
  }

  lemma {:induction false} ChallengesStoredKept(c: Config, w: World, call: Call)
    requires c.Valid() && Inv(c, w) && Enabled(w, call)
    ensures ChallengesStored(c, Step(c, w, call))
  {
    var v, more := Step(c, w, call), Happens(w, call);
    forall i | 0 <= i < |v.log| && Unspent(v.log, i) && v.clock <= v.log[i].at + c.challengeTtl
      ensures Holds(c, v.state, v.log[i])
    {
      if i < |w.log| {
        UnspentGrows(w.log, more, i);
        assert v.log[i] == w.log[i];
        assert Holds(c, w.state, w.log[i]);
      } else {
        assert v.log[i] == more[0];
      }
    }
  }

  /** What a step may do to the stored tokens, given what happened: a join replaces its node's, a
      revocation drops it, and anything else drops at most one that has expired. */
  ghost predicate TokenEffect(c: Config, w: World, v: World, more: seq<Event>) {
    var before, after := w.state.tokens, v.state.tokens;
    && w.clock <= v.clock && |more| <= 1 && v.log == w.log + more
    && (if more != [] && more[0].Joined? then
          more[0].at == v.clock && after == before[more[0].id := Token(more[0].access, more[0].at + c.tokenTtl)]
        else if more != [] && more[0].Revoked? then after == before - {more[0].id}
        else
          && (forall id :: id in after ==> id in before && after[id] == before[id])
          && (forall id :: id in before && id !in after ==> before[id].expiresAt < v.clock))
  }

  lemma {:induction false} StepTokenEffect(c: Config, w: World, call: Call)
    requires Enabled(w, call)
    ensures TokenEffect(c, w, Step(c, w, call), Happens(w, call))
  {
  }

  lemma {:induction false} TokenStillBacked(c: Config, w: World, v: World, more: seq<Event>, id: string)
    requires TokensBacked(c, w) && TokenEffect(c, w, v, more)
    requires id in w.state.tokens && id in v.state.tokens && v.state.tokens[id] == w.state.tokens[id]
    requires more == [] || more[0].Issued? || more[0].id != id
    ensures exists i :: 0 <= i < |v.log| && Latest(v.log, i) && v.log[i].id == id && Grants(c, v.state, v.log[i])
  {
    var i :| 0 <= i < |w.log| && Latest(w.log, i) && w.log[i].id == id && Grants(c, w.state, w.log[i]);
    LatestGrows(w.log, more, i);
    assert v.log[i] == w.log[i];
    assert Latest(v.log, i);
  }

  lemma {:induction false} TokensBackedKept(c: Config, w: World, v: World, more: seq<Event>)
    requires TokensBacked(c, w) && TokenEffect(c, w, v, more)
    ensures TokensBacked(c, v)
  {
    forall id | id in v.state.tokens
      ensures exists i :: 0 <= i < |v.log| && Latest(v.log, i) && v.log[i].id == id && Grants(c, v.state, v.log[i])
    {
      if more != [] && more[0].Joined? && more[0].id == id {
        assert v.log[|w.log|] == more[0];
        assert Latest(v.log, |w.log|);
      } else {
        TokenStillBacked(c, w, v, more, id);
      }
    }
  }

  lemma {:induction false} TokenStillStored(c: Config, w: World, v: World, more: seq<Event>, i: nat)
    requires TokensStored(c, w) && TokenEffect(c, w, v, more)
    requires i < |w.log| && Latest(w.log, i) && v.clock <= w.log[i].at + c.tokenTtl
    requires more == [] || more[0].Issued? || more[0].id != w.log[i].id
    ensures Grants(c, v.state, w.log[i])
  {
    assert Grants(c, w.state, w.log[i]);
  }

  lemma {:induction false} TokensStoredKept(c: Config, w: World, v: World, more: seq<Event>)
    requires TokensStored(c, w) && TokenEffect(c, w, v, more)
    ensures TokensStored(c, v)
  {
    forall i: nat | i < |v.log| && Latest(v.log, i) && v.clock <= v.log[i].at + c.tokenTtl
      ensures Grants(c, v.state, v.log[i])
    {
      if i < |w.log| {
        assert v.log[i] == w.log[i];
        LatestGrows(w.log, more, i);
        TokenStillStored(c, w, v, more, i);
      } else {
        assert v.log[i] == more[0];
      }
    }
  }

  lemma {:induction false} NoncesOnceKept(c: Config, w: World, call: Call)
    requires NoncesOnce(w.log) && Enabled(w, call)
    ensures NoncesOnce(Step(c, w, call).log)
  {
    var v, more := Step(c, w, call), Happens(w, call);
    assert forall j :: 0 <= j < |w.log| ==> v.log[j] == w.log[j];
    assert more != [] ==> v.log[|w.log|] == more[0];
  }

  lemma {:induction false} AnswersGrows(c: Config, log: seq<Event>, more: seq<Event>, i: nat, j: nat)
    requires i < |log| && j < |log| && Answers(c, log, i, j)
    ensures Answers(c, log + more, i, j)
  {
    assert (log + more)[..j] == log[..j];
  }

  /** A join that is granted answers a challenge. */
  lemma {:induction false} NewJoinAnswers(c: Config, w: World, e: Event) returns (i: nat)
    requires ChallengesBacked(c, w) && e.Joined? && e.nonce in w.state.challenges
    requires w.state.challenges[e.nonce].nodeId == e.id && e.at <= w.state.challenges[e.nonce].expiresAt
    ensures i < |w.log| && Answers(c, w.log + [e], i, |w.log|)
  {
    i :| 0 <= i < |w.log| && Unspent(w.log, i) && w.log[i].nonce == e.nonce && Holds(c, w.state, w.log[i]);
    assert (w.log + [e])[..|w.log|] == w.log;
  }

  /** A step logs at most one event, and a join only on an open challenge of that node. */
  ghost predicate JoinEffect(w: World, v: World, more: seq<Event>) {
    && v.log == w.log + more && |more| <= 1
    && (more != [] && more[0].Joined? ==>
          && more[0].nonce in w.state.challenges && w.state.challenges[more[0].nonce].nodeId == more[0].id
          && more[0].at <= w.state.challenges[more[0].nonce].expiresAt)
  }

  lemma {:induction false} StepJoinEffect(c: Config, w: World, call: Call)
    ensures JoinEffect(w, Step(c, w, call), Happens(w, call))
  {
  }

  lemma {:induction false} JoinsAnswerKept(c: Config, w: World, v: World, more: seq<Event>)
    requires ChallengesBacked(c, w) && JoinsAnswer(c, w.log) && JoinEffect(w, v, more)
    ensures JoinsAnswer(c, v.log)
  {
    forall j: nat | j < |v.log| && v.log[j].Joined? ensures exists i :: 0 <= i < |v.log| && Answers(c, v.log, i, j) {
      if j < |w.log| {
        assert v.log[j] == w.log[j];
        var i :| 0 <= i < |w.log| && Answers(c, w.log, i, j);
        AnswersGrows(c, w.log, more, i, j);
      } else {
        assert more == [v.log[j]];
        var i := NewJoinAnswers(c, w, v.log[j]);
      }
    }
  }

  ghost predicate Runnable(c: Config, w: World, calls: seq<Call>)
    decreases |calls|
  {
    calls == [] || (Enabled(w, calls[0]) && Runnable(c, Step(c, w, calls[0]), calls[1..]))
  }

  function Run(c: Config, w: World, calls: seq<Call>): World
    decreases |calls|
  {
    if calls == [] then w else Run(c, Step(c, w, calls[0]), calls[1..])
  }

  const START: World := World(State(map[], map[]), 0.0, [])

  lemma {:induction false} InvKept(c: Config, w: World, call: Call)
    requires c.Valid() && Inv(c, w) && Enabled(w, call)
    ensures Inv(c, Step(c, w, call))
  {
    ChallengesBackedKept(c, w, call);
    ChallengesStoredKept(c, w, call);
    StepTokenEffect(c, w, call);
    TokensBackedKept(c, w, Step(c, w, call), Happens(w, call));
    TokensStoredKept(c, w, Step(c, w, call), Happens(w, call));
    NoncesOnceKept(c, w, call);
    StepJoinEffect(c, w, call);
    JoinsAnswerKept(c, w, Step(c, w, call), Happens(w, call));
  }

  lemma {:induction false} RunInv(c: Config, w: World, calls: seq<Call>)
    requires c.Valid() && Inv(c, w) && Runnable(c, w, calls)
    ensures Inv(c, Run(c, w, calls))
    decreases |calls|
  {
    if calls != [] {
      InvKept(c, w, calls[0]);
      RunInv(c, Step(c, w, calls[0]), calls[1..]);
    }
  }

  /** After any run, a join is granted exactly when it is signed and answers a challenge that was
      issued to that node, is unexpired, and was neither used nor revoked since. */
  lemma {:induction false} JoinExact(c: Config, calls: seq<Call>, id: string, nonce: string, signed: bool, now: real)
    requires c.Valid() && Runnable(c, START, calls) && Run(c, START, calls).clock <= now
    ensures var w := Run(c, START, calls);
            JoinError(w.state, Some(id), nonce, signed, now).None? <==>
              && id != "" && signed
              && exists i :: 0 <= i < |w.log| && Unspent(w.log, i) && w.log[i].id == id && w.log[i].nonce == nonce
                          && now <= w.log[i].at + c.challengeTtl
  {
    var w := Run(c, START, calls);
    RunInv(c, START, calls);
    if i :| 0 <= i < |w.log| && Unspent(w.log, i) && w.log[i].id == id && w.log[i].nonce == nonce
            && now <= w.log[i].at + c.challengeTtl
    {
      assert Holds(c, w.state, w.log[i]);
    } else if nonce in w.state.challenges {
      var i :| 0 <= i < |w.log| && Unspent(w.log, i) && w.log[i].nonce == nonce && Holds(c, w.state, w.log[i]);
    }
  }

  /** After any run, a token is accepted exactly when the node's latest join handed it out, it is
      unexpired, and no revocation followed. */
  lemma {:induction false} ValidateExact(c: Config, calls: seq<Call>, id: string, access: string, now: real)
    requires c.Valid() && Runnable(c, START, calls) && Run(c, START, calls).clock <= now
    ensures var w := Run(c, START, calls);
            Accepts(w.state, id, access, now) <==>
              exists i :: 0 <= i < |w.log| && Latest(w.log, i) && w.log[i].id == id && w.log[i].access == access
                       && now <= w.log[i].at + c.tokenTtl
  {
    var w := Run(c, START, calls);
    RunInv(c, START, calls);
    if i :| 0 <= i < |w.log| && Latest(w.log, i) && w.log[i].id == id && w.log[i].access == access
            && now <= w.log[i].at + c.tokenTtl
    {
      assert Grants(c, w.state, w.log[i]);
    } else if id in w.state.tokens {
      var i :| 0 <= i < |w.log| && Latest(w.log, i) && w.log[i].id == id && Grants(c, w.state, w.log[i]);
    }
  }

  lemma {:induction false} JoinNoncesDiffer(c: Config, log: seq<Event>, j: nat, k: nat)
    requires NoncesOnce(log) && JoinsAnswer(c, log)
    requires j < k < |log| && log[j].Joined? && log[k].Joined?
    ensures log[j].nonce != log[k].nonce
  {
    var i :| 0 <= i < |log| && Answers(c, log, i, k);
    var o :| 0 <= o < |log| && Answers(c, log, o, j);
    if log[j].nonce == log[k].nonce {
      assert i == o;
      assert Spends(log[..k][j], log[..k][i]);
    }
  }

  /** Over any run, a challenge yields at most one join. */
  lemma {:induction false} OneJoinPerChallenge(c: Config, calls: seq<Call>, j: nat, k: nat)
    requires c.Valid() && Runnable(c, START, calls)
    requires var log := Run(c, START, calls).log;
             j < |log| && k < |log| && log[j].Joined? && log[k].Joined? && log[j].nonce == log[k].nonce
    ensures j == k
  {
    RunInv(c, START, calls);
    var log := Run(c, START, calls).log;
    if j < k {
      JoinNoncesDiffer(c, log, j, k);
    } else if k < j {
      JoinNoncesDiffer(c, log, k, j);
    }
  }

  /** Over any run, every join was by the node the challenge was issued to, within its lifetime. */
  lemma {:induction false} JoinsAnswerChallenges(c: Config, calls: seq<Call>, j: nat)
    requires c.Valid() && Runnable(c, START, calls)
    requires j < |Run(c, START, calls).log| && Run(c, START, calls).log[j].Joined?
    ensures var log := Run(c, START, calls).log; exists i :: 0 <= i < |log| && Answers(c, log, i, j)
  {
    RunInv(c, START, calls);
  }
}
