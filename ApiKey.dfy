/**
 * The OpenAI API-key form: the checks `validateAndSetKey` makes before it
 * hands a key to the application, and the state the form keeps while it
 * does so. The answer of the validation endpoint is an input
 * (`ServerOutcome`); the key handed to `onApiKeySet` is an output.
 */
module ApiKey {
  import opened Options
  import opened Strings

  const EmptyKeyError: string := "API 키를 입력해주세요"
  const FormatError: string := "올바른 OpenAI API 키 형식이 아닙니다 (sk-로 시작해야 합니다)"
  const InvalidKeyError: string := "유효하지 않은 API 키입니다"
  const ShortKeyError: string := "API 키가 너무 짧습니다"
  const KeyPrefix: string := "sk-"

  /** Without an answer from the endpoint a key is taken when it is longer
      than this many UTF-16 code units. */
  const FallbackMinLength: nat := 20

  /** What came back from `/api/validate-key`: the parsed body's `valid`
      and `error` fields, or an exception from `fetch` or `json`. */
  datatype ServerOutcome = Verdict(valid: bool, error: Option<string>) | Threw

  datatype Decision = Accepted | Refused(error: string)

  /** The two checks made before any request: the error they set, if any. */
  function LocalCheck(key: string): (e: Option<string>)
    ensures e.Some? <==> IsBlank(key) || !StartsWith(key, KeyPrefix)
    ensures e.Some? && IsBlank(key) ==> e.value == EmptyKeyError
    ensures e.Some? && !IsBlank(key) ==> e.value == FormatError
  {
    if IsBlank(key) then Some(EmptyKeyError)
    else if !StartsWith(key, KeyPrefix) then Some(FormatError)
    else None
  }

  /** The decision once the key has passed the local checks. */
  function ServerDecision(key: string, outcome: ServerOutcome): (d: Decision)
    ensures d.Accepted? <==>
              ((outcome.Verdict? && outcome.valid) ||
               (outcome.Threw? && Utf16Length(key) > FallbackMinLength))
    ensures outcome.Verdict? && !outcome.valid ==>
              d.error == if PresentText(outcome.error) then outcome.error.value else InvalidKeyError
    ensures outcome.Threw? && d.Refused? ==> d.error == ShortKeyError
    ensures d.Refused? ==> d.error != ""
  {
    match outcome
    case Verdict(valid, error) =>
      if valid then Accepted
      else if PresentText(error) then Refused(error.value)
      else Refused(InvalidKeyError)
    case Threw =>
      if Utf16Length(key) > FallbackMinLength then Accepted else Refused(ShortKeyError)
  }

  /** The whole of `validateAndSetKey` as one decision. */
  function Decide(key: string, outcome: ServerOutcome): (d: Decision)
    ensures d.Accepted? ==> !IsBlank(key) && StartsWith(key, KeyPrefix)
    ensures IsBlank(key) ==> d == Refused(EmptyKeyError)
    ensures !IsBlank(key) && !StartsWith(key, KeyPrefix) ==> d == Refused(FormatError)
    ensures LocalCheck(key).None? ==> d == ServerDecision(key, outcome)
  {
    if LocalCheck(key).Some? then Refused(LocalCheck(key).value) else ServerDecision(key, outcome)
  }

  /** A key refused by the local checks is refused the same way whatever
      the endpoint would have said: no request is made for it. */
  lemma LocalRefusalIgnoresServer(key: string, a: ServerOutcome, b: ServerOutcome)
    requires LocalCheck(key).Some?
    ensures Decide(key, a) == Decide(key, b) == Refused(LocalCheck(key).value)
  {
  }

  /** The format check looks at the untrimmed key: a key with a leading
      space is refused even when the rest of it is well formed. */
  lemma LeadingSpaceRefused(rest: string, outcome: ServerOutcome)
    requires StartsWith(rest, KeyPrefix)
    ensures Decide(" " + rest, outcome) == Refused(FormatError)
  {
    var key := " " + rest;
    assert !IsJsWhiteSpace(key[1]) by { assert key[1] == rest[0] == 's'; }
    BlankIff(key);
    assert key[..|KeyPrefix|] != KeyPrefix by { assert key[0] == ' '; }
  }

  /** When the endpoint cannot be reached, a key in the Basic Multilingual
      Plane is accepted exactly when it has more than twenty characters. */
  lemma ThrewAcceptsLongKeys(key: string)
    requires LocalCheck(key).None?
    requires forall i :: 0 <= i < |key| ==> key[i] as int < 0x1_0000
    ensures Decide(key, Threw).Accepted? <==> |key| > FallbackMinLength
  {
  }

  /** The state of the form. `handedOver` records every key passed to
      `onApiKeySet`, in order. */
  class ApiKeyInput {
    var apiKey: string
    var error: string
    var isValidating: bool
    ghost var handedOver: seq<string>

    /** Only keys that start with `sk-` are ever handed over. */
    ghost predicate Valid()
      reads this
    {
      forall i :: 0 <= i < |handedOver| ==> StartsWith(handedOver[i], KeyPrefix)
    }

    constructor()
      ensures Valid()
      ensures apiKey == "" && error == "" && !isValidating && handedOver == []
    {
      apiKey := "";
      error := "";
      isValidating := false;
      handedOver := [];
    }

    /** The input's `onChange`: the new text replaces the key and any error
      is cleared. */
    method OnChange(value: string)
      requires Valid()
      modifies this
      ensures Valid()
      ensures apiKey == value && error == ""
      ensures isValidating == old(isValidating) && handedOver == old(handedOver)
    {
      apiKey := value;
      error := "";
    }

    /** `validateAndSetKey` up to the request: the two checks, then the
      validating flag is raised and the error cleared. The key is the one
      the handler will use after the request. */
    method BeginValidation() returns (key: string, started: bool)
      requires Valid()
      modifies this
      ensures Valid()
      ensures key == apiKey == old(apiKey) && handedOver == old(handedOver)
      ensures started <==> LocalCheck(key).None?
      ensures started ==> isValidating && error == ""
      ensures !started ==> isValidating == old(isValidating) && error == LocalCheck(key).value
    {
      key := apiKey;
      if IsBlank(key) {
        error := EmptyKeyError;
        return key, false;
      }
      if !StartsWith(key, KeyPrefix) {
        error := FormatError;
        return key, false;
      }
      isValidating := true;
      error := "";
      started := true;
    }

    /** `validateAndSetKey` after the request: accept the key or set the
      error, then lower the validating flag whatever happened. */
    method FinishValidation(key: string, outcome: ServerOutcome) returns (handed: Option<string>)
      requires Valid() && StartsWith(key, KeyPrefix)
      modifies this
      ensures Valid()
      ensures !isValidating && apiKey == old(apiKey)
      ensures handed == if ServerDecision(key, outcome).Accepted? then Some(key) else None
      ensures handedOver == old(handedOver) + if handed.Some? then [key] else []
      ensures error == if handed.Some? then old(error) else ServerDecision(key, outcome).error
    {
      var decision := ServerDecision(key, outcome);
      if decision.Accepted? {
        handed := Some(key);
        handedOver := handedOver + [key];
      } else {
        handed := None;
        error := decision.error;
      }
      isValidating := false;
    }

    /** One whole call of `validateAndSetKey` with no edit in between. */
    method ValidateAndSetKey(outcome: ServerOutcome) returns (handed: Option<string>)
      requires Valid()
      modifies this
      ensures Valid()
      ensures apiKey == old(apiKey)
      ensures handed == if Decide(apiKey, outcome).Accepted? then Some(apiKey) else None
      ensures handedOver == old(handedOver) + if handed.Some? then [apiKey] else []
      ensures Decide(apiKey, outcome).Refused? ==> error == Decide(apiKey, outcome).error
      ensures Decide(apiKey, outcome).Accepted? ==> error == ""
      ensures isValidating == (old(isValidating) && LocalCheck(apiKey).Some?)
    {
      var key, started := BeginValidation();
      if !started {
        return None;
      }
      handed := FinishValidation(key, outcome);
    }

    /** `handleKeyPress`: Enter, with or without Shift, runs the validation;
      any other key does nothing. */
    method HandleKeyPress(pressed: string, outcome: ServerOutcome) returns (handed: Option<string>)
      requires Valid()
      modifies this
      ensures Valid()
      ensures pressed != "Enter" ==>
                handed.None? && apiKey == old(apiKey) && error == old(error) &&
                isValidating == old(isValidating) && handedOver == old(handedOver)
      ensures pressed == "Enter" ==>
                var decision := Decide(old(apiKey), outcome);
                && apiKey == old(apiKey)
                && handed == (if decision.Accepted? then Some(old(apiKey)) else None)
                && handedOver == old(handedOver) + (if handed.Some? then [old(apiKey)] else [])
                && (decision.Refused? ==> error == decision.error)
                && (decision.Accepted? ==> error == "")
                && isValidating == (old(isValidating) && LocalCheck(old(apiKey)).Some?)
    {
      if pressed == "Enter" {
        handed := ValidateAndSetKey(outcome);
      } else {
        handed := None;
      }
    }
  }
}
