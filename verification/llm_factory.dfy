/** The chat-model provider choice of services/llm_factory.py
    (`create_chat_llm`): Azure OpenAI when all four Azure settings are
    present, else OpenAI when OPENAI_API_KEY is set, else an error. The
    client construction itself is outside the model; the choice and the
    settings it passes on are what is modelled. */
module LlmFactory {
  import opened Base
  import opened Text
  import opened Seqs

  const AzureNames: seq<string> :=
    ["AZURE_OPENAI_API_KEY", "AZURE_OPENAI_ENDPOINT", "AZURE_OPENAI_DEPLOYMENT", "AZURE_OPENAI_API_VERSION"]
  const DefaultOpenAiModel := "gpt-4o-mini"
  const NoProvider :=
    "No LLM provider configured. Set OPENAI_API_KEY (and optional OPENAI_MODEL) OR all of " +
    "AZURE_OPENAI_API_KEY, AZURE_OPENAI_ENDPOINT, AZURE_OPENAI_DEPLOYMENT, AZURE_OPENAI_API_VERSION."

  datatype Provider =
    | Azure(apiKey: string, endpoint: string, deployment: string, apiVersion: string)
    | OpenAi(model: string, apiKey: string)

  /** One value of `_all_present`: set and not empty after `strip()`. */
  predicate Present(v: Option<string>) {
    v.Some? && Strip(v.value) != ""
  }

  /** `_all_present(*values)`. */
  predicate AllPresent(values: seq<Option<string>>) {
    values == [] || (Present(values[0]) && AllPresent(values[1..]))
  }

  /** Set and holding a non-whitespace character. */
  predicate Filled(v: Option<string>) {
    v.Some? && !Blank(v.value)
  }

  lemma PresentIffFilled(v: Option<string>)
    ensures Present(v) <==> Filled(v)
  {
    if v.Some? {
      StripEmptyIffBlank(v.value);
    }
  }

  /** `_all_present` holds exactly when every value is set and has a
      non-whitespace character. */
  lemma {:induction false} AllPresentIff(values: seq<Option<string>>)
    ensures AllPresent(values) <==> forall i :: 0 <= i < |values| ==> Filled(values[i])
  {
    if values != [] {
      var rest := values[1..];
      AllPresentIff(rest);
      PresentIffFilled(values[0]);
      if AllPresent(values) {
        forall i | 0 <= i < |values| ensures Filled(values[i]) {
          if i > 0 {
            assert values[i] == rest[i - 1];
          }
        }
      } else if Present(values[0]) {
        var j :| 0 <= j < |rest| && !Filled(rest[j]);
        assert values[j + 1] == rest[j];
      }
    }
  }

  /** `_all_present` of four values. */
  lemma AllPresentFour(a: Option<string>, b: Option<string>, c: Option<string>, d: Option<string>)
    ensures AllPresent([a, b, c, d]) <==> Present(a) && Present(b) && Present(c) && Present(d)
  {
    var s := [a, b, c, d];
    assert s[1..] == [b, c, d] && s[1..][1..] == [c, d] && s[1..][1..][1..] == [d];
    assert AllPresent([d]) <==> Present(d) by {
      assert [d][1..] == [];
    }
    assert AllPresent([c, d]) <==> Present(c) && AllPresent([d]);
    assert AllPresent([b, c, d]) <==> Present(b) && AllPresent([c, d]);
  }

  /** The four Azure settings in their fixed order. */
  function AzureSettings(env: Env): (r: seq<Option<string>>)
    ensures |r| == 4 && forall i :: 0 <= i < 4 ==> r[i] == GetEnv(env, AzureNames[i])
  {
    [GetEnv(env, AzureNames[0]), GetEnv(env, AzureNames[1]), GetEnv(env, AzureNames[2]), GetEnv(env, AzureNames[3])]
  }

  predicate Missing(env: Env, name: string) {
    !Present(GetEnv(env, name))
  }

  /** The names the debug message lists as missing: `not (val and val.strip())`. */
  function MissingAzureSettings(env: Env): (r: seq<string>)
    ensures IsSubsequence(r, AzureNames)
    ensures forall n :: n in r <==> n in AzureNames && Missing(env, n)
  {
    FilterIsSubsequence((n: string) => Missing(env, n), AzureNames);
    Filter((n: string) => Missing(env, n), AzureNames)
  }

  /** Nothing is reported missing exactly when the Azure path is taken. */
  lemma MissingIffNotAllPresent(env: Env)
    ensures MissingAzureSettings(env) == [] <==> AllPresent(AzureSettings(env))
  {
    var s := AzureSettings(env);
    var m := MissingAzureSettings(env);
    AllPresentFour(s[0], s[1], s[2], s[3]);
    assert s == [s[0], s[1], s[2], s[3]];
    if m == [] {
      assert forall i :: 0 <= i < 4 ==> AzureNames[i] !in m;
    } else {
      assert m[0] in m;
    }
  }

  /** `create_chat_llm`'s provider choice. */
  function SelectProvider(env: Env): (r: Result<Provider>)
    ensures r.Err? <==> !AllPresent(AzureSettings(env)) && !Truthy(GetEnv(env, "OPENAI_API_KEY"))
    ensures r.Err? ==> r.msg == NoProvider
    ensures r.Ok? && r.value.Azure? ==>
      AllPresent(AzureSettings(env)) &&
      AzureSettings(env) == [Some(r.value.apiKey), Some(r.value.endpoint), Some(r.value.deployment), Some(r.value.apiVersion)]
    ensures r.Ok? && r.value.OpenAi? ==>
      !AllPresent(AzureSettings(env)) && GetEnv(env, "OPENAI_API_KEY") == Some(r.value.apiKey) && r.value.apiKey != "" &&
      r.value.model == GetEnvOr(env, "OPENAI_MODEL", DefaultOpenAiModel)
  {
    var s := AzureSettings(env);
    AllPresentFour(s[0], s[1], s[2], s[3]);
    assert s == [s[0], s[1], s[2], s[3]];
    if AllPresent(s) then
      Ok(Azure(s[0].value, s[1].value, s[2].value, s[3].value))
    else
      var key := GetEnv(env, "OPENAI_API_KEY");
      if Truthy(key) then Ok(OpenAi(GetEnvOr(env, "OPENAI_MODEL", DefaultOpenAiModel), key.value))
      else Err(NoProvider)
  }

  /** Azure wins whenever it is fully configured: setting or clearing
      OPENAI_API_KEY changes nothing. */
  lemma AzurePrecedence(env: Env, key: string)
    requires AllPresent(AzureSettings(env))
    ensures SelectProvider(env[ "OPENAI_API_KEY" := key]) == SelectProvider(env)
    ensures SelectProvider(env - {"OPENAI_API_KEY"}) == SelectProvider(env)
    ensures SelectProvider(env).Ok? && SelectProvider(env).value.Azure?
  {
    assert forall n :: n in AzureNames ==> GetEnv(env[ "OPENAI_API_KEY" := key], n) == GetEnv(env, n);
    assert forall n :: n in AzureNames ==> GetEnv(env - {"OPENAI_API_KEY"}, n) == GetEnv(env, n);
    assert AzureSettings(env[ "OPENAI_API_KEY" := key]) == AzureSettings(env);
    assert AzureSettings(env - {"OPENAI_API_KEY"}) == AzureSettings(env);
  }

  /** A whitespace-only Azure setting counts as missing and falls back to
      OpenAI. */
  lemma BlankAzureSettingFallsBack(env: Env)
    requires "AZURE_OPENAI_ENDPOINT" in env && env["AZURE_OPENAI_ENDPOINT"] == "  "
    requires "OPENAI_API_KEY" in env && env["OPENAI_API_KEY"] == "sk"
    requires "OPENAI_MODEL" !in env
    ensures SelectProvider(env) == Ok(OpenAi(DefaultOpenAiModel, "sk"))
  {
    var s := AzureSettings(env);
    assert s[1] == Some("  ");
    StripEmptyIffBlank("  ");
    AllPresentFour(s[0], s[1], s[2], s[3]);
    assert s == [s[0], s[1], s[2], s[3]];
  }
}
