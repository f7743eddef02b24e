/**
 * The MCP Tools side of an approval: the token store, the fault registry, and the two halves of
 * `remediation.execute` around its call to the simulator.
 */
module McpTools {
  import opened Basics

  datatype Verdict = Approval | Denial

  datatype Token = Token(token: string, fault: string, verdict: Verdict, decidedBy: string, consumed: bool)

  datatype Record = Record(fault: string, asset: string, scenario: string, allowed: seq<string>)

  datatype ExecuteError =
    | NotApproved
    | TokenInvalid
    | TokenConsumed
    | StepNotAllowed(invalid: seq<string>)
    | SimulatorClearFailed

  function Consumed(tokens: map<string, Token>, token: string): map<string, Token> {
    if token in tokens then tokens[token := tokens[token].(consumed := true)] else tokens
  }

  class ApprovalTokenStore {
    var tokens: map<string, Token>

    constructor ()
      ensures tokens == map[]
    {
      tokens := map[];
    }

    /** `drawn` stands for the random string the store draws. */
    method Mint(fault: string, verdict: Verdict, decidedBy: string, drawn: string) returns (tok: Token)
      modifies this
      ensures tok == Token(drawn, fault, verdict, decidedBy, false)
      ensures tokens == old(tokens)[drawn := tok]
    {
      tok := Token(drawn, fault, verdict, decidedBy, false);
      tokens := tokens[tok.token := tok];
    }

    function Get(token: string): (r: Option<Token>)
      reads this
      ensures r.Some? <==> token in tokens
      ensures r.Some? ==> r.value == tokens[token]
    {
      if token in tokens then Some(tokens[token]) else None
    }

    method Consume(token: string)
      modifies this
      ensures tokens == Consumed(old(tokens), token)
    {
      if token in tokens {
        tokens := tokens[token := tokens[token].(consumed := true)];
      }
    }

    method Clear()
      modifies this
      ensures tokens == map[]
    {
      tokens := map[];
    }
  }

  class FaultEventRegistry {
    var records: map<string, Record>

    constructor ()
      ensures records == map[]
    {
      records := map[];
    }

    method Register(fault: string, asset: string, scenario: string, allowed: seq<string>)
      modifies this
      ensures records == old(records)[fault := Record(fault, asset, scenario, allowed)]
    {
      records := records[fault := Record(fault, asset, scenario, allowed)];
    }

    function Get(fault: string): (r: Option<Record>)
      reads this
      ensures r.Some? <==> fault in records
      ensures r.Some? ==> r.value == records[fault]
    {
      if fault in records then Some(records[fault]) else None
    }

    method Clear()
      modifies this
      ensures records == map[]
    {
      records := map[];
    }
  }

  /** The steps outside the allowlist, in the order they were asked for. */
  function Disallowed(steps: seq<string>, allowed: seq<string>): seq<string> {
    if steps == [] then []
    else (if steps[0] in allowed then [] else [steps[0]]) + Disallowed(steps[1..], allowed)
  }

  lemma {:induction false} DisallowedMembers(steps: seq<string>, allowed: seq<string>, s: string)
    ensures s in Disallowed(steps, allowed) <==> s in steps && s !in allowed
  {
    if steps != [] {
      DisallowedMembers(steps[1..], allowed, s);
      assert steps == [steps[0]] + steps[1..];
    }
  }

  /**
   * The first half of `remediation.execute`: every check, in order, on what the stores hold now.
   * Passing yields the asset to clear.
   */
  function Check(
    fault: string, token: string, steps: seq<string>,
    tokens: map<string, Token>, records: map<string, Record>)
    : Result<string, ExecuteError>
  {
    if token == "" then Err(NotApproved)
    else if token !in tokens then Err(TokenInvalid)
    else if tokens[token].fault != fault then Err(TokenInvalid)
    else if tokens[token].verdict != Approval then Err(NotApproved)
    else if tokens[token].consumed then Err(TokenConsumed)
    else if fault !in records then Err(NotApproved)
    else
      var invalid := Disallowed(steps, records[fault].allowed);
      if invalid != [] then Err(StepNotAllowed(invalid)) else Ok(records[fault].asset)
  }

  /**
   * A call gets past the checks exactly when its token is stored, bound to this fault, approved and
   * unspent, the fault is registered, and no step falls outside the allowlist. An empty step list
   * passes the last test, whatever the allowlist says.
   */
  lemma CheckPasses(
    fault: string, token: string, steps: seq<string>,
    tokens: map<string, Token>, records: map<string, Record>)
    ensures Check(fault, token, steps, tokens, records).Ok?
      <==> && token != "" && token in tokens
           && tokens[token].fault == fault && tokens[token].verdict == Approval && !tokens[token].consumed
           && fault in records
           && forall s :: s in steps ==> s in records[fault].allowed
    ensures Check(fault, token, steps, tokens, records).Ok?
      ==> Check(fault, token, steps, tokens, records).value == records[fault].asset
  {
    if fault in records {
      var allowed := records[fault].allowed;
      forall s: string
        ensures s in Disallowed(steps, allowed) <==> s in steps && s !in allowed
      {
        DisallowedMembers(steps, allowed, s);
      }
      if Disallowed(steps, allowed) != [] {
        assert Disallowed(steps, allowed)[0] in Disallowed(steps, allowed);
      }
    }
  }

  /**
   * Which refusal a call meets: a token that is unknown or bound to another fault is invalid even if spent; a
   * spent approval reads as consumed whatever the registry holds; steps are looked at last.
   */
  lemma RefusalsSay(
    fault: string, token: string, steps: seq<string>,
    tokens: map<string, Token>, records: map<string, Record>)
    ensures var r := Check(fault, token, steps, tokens, records);
      var bound := token in tokens && tokens[token].fault == fault;
      && (r == Err(TokenInvalid) <==> token != "" && !bound)
      && (r == Err(TokenConsumed) <==> token != "" && bound && tokens[token].verdict == Approval && tokens[token].consumed)
      && (r == Err(NotApproved) <==>
            || token == ""
            || (bound && (tokens[token].verdict == Denial || (!tokens[token].consumed && fault !in records))))
      && (r.Err? && r.error.StepNotAllowed? <==>
            && token != "" && bound && tokens[token].verdict == Approval && !tokens[token].consumed
            && fault in records && exists s :: s in steps && s !in records[fault].allowed)
      && (r.Err? && r.error.StepNotAllowed? ==>
            forall s :: s in r.error.invalid <==> s in steps && s !in records[fault].allowed)
      && r != Err(SimulatorClearFailed)
  {
    CheckPasses(fault, token, steps, tokens, records);
    if fault in records {
      forall s: string
        ensures s in Disallowed(steps, records[fault].allowed) <==> s in steps && s !in records[fault].allowed
      {
        DisallowedMembers(steps, records[fault].allowed, s);
      }
    }
  }

  method BeginExecute(
    fault: string, token: string, steps: seq<string>,
    tokenStore: ApprovalTokenStore, registry: FaultEventRegistry)
    returns (r: Result<string, ExecuteError>)
    ensures r == Check(fault, token, steps, tokenStore.tokens, registry.records)
  {
    if token == "" {
      return Err(NotApproved);
    }
    var stored := tokenStore.Get(token);
    if stored.None? || stored.value.fault != fault {
      return Err(TokenInvalid);
    }
    if stored.value.verdict != Approval {
      return Err(NotApproved);
    }
    if stored.value.consumed {
      return Err(TokenConsumed);
    }
    var record := registry.Get(fault);
    if record.None? {
      return Err(NotApproved);
    }
    var invalid := [];
    var i := 0;
    while i < |steps|
      invariant 0 <= i <= |steps|
      invariant invalid + Disallowed(steps[i..], record.value.allowed) == Disallowed(steps, record.value.allowed)
    {
      assert steps[i..][1..] == steps[i + 1..];
      if steps[i] !in record.value.allowed {
        invalid := invalid + [steps[i]];
      }
      i := i + 1;
    }
    assert invalid == Disallowed(steps, record.value.allowed);
    if invalid != [] {
      return Err(StepNotAllowed(invalid));
    }
    return Ok(record.value.asset);
  }

  /** The second half. A refused clear leaves the token as it was; a confirmed one spends it. */
  method FinishExecute(token: string, cleared: bool, tokenStore: ApprovalTokenStore)
    returns (r: Result<(), ExecuteError>)
    modifies tokenStore
    ensures r == if cleared then Ok(()) else Err(SimulatorClearFailed)
    ensures tokenStore.tokens == if cleared then Consumed(old(tokenStore.tokens), token) else old(tokenStore.tokens)
  {
    if !cleared {
      return Err(SimulatorClearFailed);
    }
    tokenStore.Consume(token);
    return Ok(());
  }
}
