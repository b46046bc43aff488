/** What the producer publishes fits the schema the consumer's fixtures are checked against. */
module ProducerSchema {
  import opened Derive
  import opened FixtureSchema
  import opened HerdrApi
  import opened Json
  import opened Patterns
  import opened Validator

  /** The schema's token keys mirror the producer's, key by key. */
  lemma RulesMirrorTokens()
    ensures TOKEN_RULES.Keys == OWNED
    ensures forall k | k in STATUS_TOKENS :: TOKEN_RULES[k] == StatusOrLabel
    ensures forall k | k in OWNED - STATUS_TOKENS :: TOKEN_RULES[k] == Match(DecimalCount)
  {
    CountKeysApart();
  }

  /** A tokens object as the server reports it: the set keys with their values, in any order. */
  ghost predicate Renders(fields: seq<Field>, want: HerdrApi.Tokens) {
    forall f | f in fields :: f.key in want && want[f.key].Some? && f.value == Str(want[f.key].value)
  }

  lemma CountIsDecimal(n: nat)
    ensures Rendered(n).Some? ==> Matches(DecimalCount, Rendered(n).value)
  {
  }

  lemma CarriedFits(ws: Workspace, mode: string)
    requires Matches(Label, ws.caption)
    requires ws.status.Some? ==> ws.status.value in AGENT_STATUS
    ensures Matches(Label, CarriedValue(ws, mode)) || CarriedValue(ws, mode) in STATUS_WORDS
  {
  }

  /** For every workspace with a conformant label and status, any agents and either value mode, the published
      tokens are accepted. */
  lemma PublishedTokensConform(ws: Workspace, agents: seq<Agent>, mode: string, fields: seq<Field>)
    requires Matches(Label, ws.caption)
    requires ws.status.Some? ==> ws.status.value in AGENT_STATUS
    requires Renders(fields, DesiredTokens(ws, agents, mode))
    ensures Conforms(Checker.Tokens(TOKEN_RULES), Obj(fields))
  {
    RulesMirrorTokens();
    CarriedFits(ws, mode);
    CountIsDecimal(BlockedCount(agents, ws.id));
    CountIsDecimal(AgentCount(agents, ws.id));
    forall f | f in fields
      ensures f.key in TOKEN_RULES && Conforms(TOKEN_RULES[f.key], f.value)
    {
      assert f.key in OWNED;
      TokenConforms(ws, agents, mode, f.key);
    }
  }

  lemma TokenConforms(ws: Workspace, agents: seq<Agent>, mode: string, key: string)
    requires key in OWNED && TokenFor(ws, agents, mode, key).Some?
    requires Matches(Label, CarriedValue(ws, mode)) || CarriedValue(ws, mode) in STATUS_WORDS
    ensures key in TOKEN_RULES && Conforms(TOKEN_RULES[key], Str(TokenFor(ws, agents, mode, key).value))
  {
    RulesMirrorTokens();
    CountIsDecimal(BlockedCount(agents, ws.id));
    CountIsDecimal(AgentCount(agents, ws.id));
  }
}
