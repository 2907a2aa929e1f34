/**
 * The compliment route: validate the request, generate, then recover a JSON object
 * from the model's answer (fence strip, brace-balance scan from the first '{', greedy
 * fallback, a second parse after rewriting shell-style comments) and answer it with the
 * provider's display name under `model`.
 *
 * `repairParse` stands for `JSON.parse(jsonrepair(text))`: a partial parser given as an
 * input, `Err(message)` when it throws.
 */
module Compliment {
  import opened Base
  import opened Json
  import opened Text
  import opened Http
  import opened ModelOutput
  import opened Llm

  /* ---------------- brace-balance extraction ---------------- */

  /** The number of '{' minus the number of '}' in `s[lo..j]`. */
  function Depth(s: string, lo: nat, j: nat): int
    requires lo <= j <= |s|
  {
    multiset(s[lo..j])['{'] as int - multiset(s[lo..j])['}'] as int
  }

  /** One more character moves the depth by +1 for '{', -1 for '}', 0 otherwise. */
  lemma DepthStep(s: string, lo: nat, j: nat)
    requires lo <= j < |s|
    ensures Depth(s, lo, j + 1) == Depth(s, lo, j) + (if s[j] == '{' then 1 else if s[j] == '}' then -1 else 0)
  {
    assert s[lo..j + 1] == s[lo..j] + [s[j]];
  }

  /** Scanning from `lo`, the running depth first returns to zero right after index `i`. */
  ghost predicate ClosesAt(s: string, lo: nat, i: int)
  {
    lo <= i < |s| && Depth(s, lo, i + 1) == 0 && forall k :: lo < k <= i ==> Depth(s, lo, k) != 0
  }

  /** Scanning from `lo`, the running depth never returns to zero. */
  ghost predicate NeverCloses(s: string, lo: nat)
  {
    lo <= |s| && forall k :: lo < k <= |s| ==> Depth(s, lo, k) != 0
  }

  /** The `for` loop that tracks `balance` from the first '{' and stops when it reaches 0. */
  method ScanBalanced(s: string, lo: nat) returns (close: Option<nat>)
    requires lo <= |s|
    ensures close.Some? ==> ClosesAt(s, lo, close.value)
    ensures close.None? ==> NeverCloses(s, lo)
  {
    var balance := 0;
    var i := lo;
    while i < |s|
      invariant lo <= i <= |s|
      invariant balance == Depth(s, lo, i)
      invariant forall k :: lo < k <= i ==> Depth(s, lo, k) != 0
    {
      DepthStep(s, lo, i);
      if s[i] == '{' {
        balance := balance + 1;
      } else if s[i] == '}' {
        balance := balance - 1;
      }
      if balance == 0 {
        return Some(i);
      }
      i := i + 1;
    }
    return None;
  }

  /**
   * The text handed to the parser: the balanced object from the first '{' when the scan
   * closes, otherwise the greedy first-'{'-to-last-'}' cut, or the whole cleaned text.
   */
  ghost predicate IsCandidate(clean: string, candidate: string)
  {
    match FirstIndex(clean, '{')
    case None => candidate == clean
    case Some(lo) =>
      (exists i :: ClosesAt(clean, lo, i) && candidate == clean[lo..i + 1])
      || (NeverCloses(clean, lo) && candidate == GreedySlice(clean))
  }

  method ExtractJson(clean: string) returns (candidate: string)
    ensures IsCandidate(clean, candidate)
  {
    var firstOpen := FirstIndex(clean, '{');
    var extracted: Option<string> := None;
    if firstOpen.Some? {
      var close := ScanBalanced(clean, firstOpen.value);
      if close.Some? {
        extracted := Some(clean[firstOpen.value..close.value + 1]);
      }
    }
    if extracted.None? {
      candidate := GreedySlice(clean);
    } else {
      candidate := extracted.value;
    }
  }

  /** After an opening '{', the depth stays positive until it first returns to zero. */
  lemma {:induction false} DepthPositive(s: string, lo: nat, k: nat)
    requires lo < |s| && s[lo] == '{'
    requires lo < k <= |s|
    requires forall m :: lo < m <= k ==> Depth(s, lo, m) != 0
    ensures Depth(s, lo, k) > 0
    decreases k
  {
    DepthStep(s, lo, k - 1);
    if k > lo + 1 {
      DepthPositive(s, lo, k - 1);
    } else {
      assert s[lo..lo] == [];
    }
  }

  /** A closing scan starts on the opening brace and stops on a later closing one. */
  lemma ClosedEnds(s: string, lo: nat, i: nat)
    requires lo < |s| && s[lo] == '{'
    requires ClosesAt(s, lo, i)
    ensures lo < i && s[i] == '}'
  {
    DepthStep(s, lo, lo);
    assert s[lo..lo] == [];
    assert lo < i;
    DepthPositive(s, lo, i);
    DepthStep(s, lo, i);
  }

  /**
   * A closed scan yields a balanced object: it starts with '{', ends with '}', holds as
   * many '{' as '}', and every proper prefix holds more '{' than '}'.
   */
  lemma ClosedCandidate(s: string, lo: nat, i: nat)
    requires lo < |s| && s[lo] == '{'
    requires ClosesAt(s, lo, i)
    ensures lo < i
    ensures var c := s[lo..i + 1];
      c[0] == '{' && c[|c| - 1] == '}'
      && multiset(c)['{'] == multiset(c)['}']
      && forall k :: 0 < k < |c| ==> multiset(c[..k])['{'] > multiset(c[..k])['}']
  {
    DepthStep(s, lo, lo);
    assert s[lo..lo] == [];
    assert lo < i;
    DepthPositive(s, lo, i);
    DepthStep(s, lo, i);
    var c := s[lo..i + 1];
    forall k | 0 < k < |c|
      ensures multiset(c[..k])['{'] > multiset(c[..k])['}']
    {
      assert c[..k] == s[lo..lo + k];
      DepthPositive(s, lo, lo + k);
    }
  }

  /** The running depth returns to zero at one index at most. */
  lemma ClosesOnce(s: string, lo: nat, i: int, j: int)
    requires ClosesAt(s, lo, i) && ClosesAt(s, lo, j)
    ensures i == j
  {
    assert Depth(s, lo, i + 1) == 0 && Depth(s, lo, j + 1) == 0;
  }

  /** The extraction is deterministic: the cleaned text has exactly one candidate. */
  lemma CandidateUnique(clean: string, a: string, b: string)
    requires IsCandidate(clean, a) && IsCandidate(clean, b)
    ensures a == b
  {
    if FirstIndex(clean, '{').Some? {
      var lo := FirstIndex(clean, '{').value;
      forall i, j | ClosesAt(clean, lo, i) && ClosesAt(clean, lo, j)
        ensures i == j
      {
        ClosesOnce(clean, lo, i, j);
      }
      forall i | ClosesAt(clean, lo, i)
        ensures !NeverCloses(clean, lo)
      {
        assert Depth(clean, lo, i + 1) == 0;
      }
    }
  }

  /** A '{' followed by five brace-free characters and a '}' closes the scan at once. */
  lemma ClosesAfterSix(s: string)
    requires |s| >= 7 && s[0] == '{' && s[6] == '}'
    requires forall m :: 1 <= m < 6 ==> s[m] != '{' && s[m] != '}'
    ensures ClosesAt(s, 0, 6)
  {
    assert s[0..0] == [];
    DepthStep(s, 0, 0);
    DepthStep(s, 0, 1);
    DepthStep(s, 0, 2);
    DepthStep(s, 0, 3);
    DepthStep(s, 0, 4);
    DepthStep(s, 0, 5);
    DepthStep(s, 0, 6);
  }

  /**
   * The scan counts braces inside string literals too: for `{"a":"}","b":1}` the only
   * candidate is `{"a":"}`, which stops inside the first string and loses the member `b`.
   */
  lemma BraceInStringCuts(candidate: string)
    requires IsCandidate("{\"a\":\"}\",\"b\":1}", candidate)
    ensures candidate == "{\"a\":\"}"
  {
    var text := "{\"a\":\"}\",\"b\":1}";
    assert FirstIndex(text, '{') == Some(0);
    ClosesAfterSix(text);
    assert IsCandidate(text, text[0..7]);
    CandidateUnique(text, candidate, text[0..7]);
    assert text[0..7] == "{\"a\":\"}";
  }

  /** A balanced cut from `lo` occurs in the text and runs from '{' to '}'. */
  lemma ClosedSlice(s: string, lo: nat, candidate: string)
    requires lo < |s| && s[lo] == '{'
    requires exists i :: ClosesAt(s, lo, i) && candidate == s[lo..i + 1]
    ensures Occurs(s, candidate) && |candidate| >= 2 && candidate[0] == '{' && candidate[|candidate| - 1] == '}'
  {
    var i :| ClosesAt(s, lo, i) && candidate == s[lo..i + 1];
    ClosedEnds(s, lo, i);
    assert OccursAt(s, candidate, lo);
  }

  /** Every candidate is a contiguous piece of the cleaned text. */
  lemma CandidateIsSlice(clean: string, candidate: string)
    requires IsCandidate(clean, candidate)
    ensures Occurs(clean, candidate)
    ensures candidate == clean || (|candidate| >= 2 && candidate[0] == '{' && candidate[|candidate| - 1] == '}')
  {
    var first := FirstIndex(clean, '{');
    if first.None? {
      assert OccursAt(clean, clean, 0);
    } else if candidate != GreedySlice(clean) {
      ClosedSlice(clean, first.value, candidate);
    }
  }

  /* ---------------- the second-chance patch ---------------- */

  const HashComment := ", #"
  const SlashComment := ", //"

  /** `text.replace(/, #/g, ', //')`. */
  function Patched(s: string): string
  {
    ReplaceAll(s, HashComment, SlashComment)
  }

  lemma PatchedHead(s: string)
    requires Patched(s) != []
    ensures s != [] && Patched(s)[0] == s[0]
  {
    assert |HashComment| == 3;
    if |s| >= 3 && s[..3] == HashComment {
      assert s[0] == s[..3][0];
    }
  }

  lemma PatchedSecond(s: string)
    requires |Patched(s)| >= 2
    ensures |s| >= 2 && Patched(s)[1] == s[1]
  {
    assert |HashComment| == 3;
    if |s| >= 3 {
      if s[..3] == HashComment {
        assert s[1] == s[..3][1];
      } else {
        assert Patched(s) == [s[0]] + Patched(s[1..]);
        PatchedHead(s[1..]);
      }
    }
  }

  /** After the rewrite, no ", #" is left. */
  lemma {:induction false} NoHashCommentLeft(s: string)
    ensures !Occurs(Patched(s), HashComment)
    decreases |s|
  {
    assert |HashComment| == 3;
    var r := Patched(s);
    if |s| < 3 {
    } else if s[..3] == HashComment {
      var t := s[3..];
      NoHashCommentLeft(t);
      assert r == SlashComment + Patched(t);
      forall i | 0 <= i <= |r|
        ensures !OccursAt(r, HashComment, i)
      {
        if i >= 4 {
          if i + 3 <= |r| {
            assert r[i..i + 3] == Patched(t)[i - 4..i - 1];
          }
          assert !OccursAt(Patched(t), HashComment, i - 4);
        } else if i + 3 <= |r| {
          assert r[i..i + 3][0] == r[i];
          assert r[i..i + 3][2] == r[i + 2];
          assert i == 0 ==> r[2] == '/';
          assert i != 0 ==> r[i] != ',';
        }
      }
    } else {
      var t := s[1..];
      NoHashCommentLeft(t);
      assert r == [s[0]] + Patched(t);
      forall i | 1 <= i <= |r|
        ensures !OccursAt(r, HashComment, i)
      {
        if i + 3 <= |r| {
          assert r[i..i + 3] == Patched(t)[i - 1..i + 2];
        }
        assert !OccursAt(Patched(t), HashComment, i - 1);
      }
      if |r| >= 3 {
        PatchedHead(t);
        PatchedSecond(t);
        assert r[..3] == [s[0], t[0], t[1]];
        assert s[..3] == [s[0], s[1], s[2]];
      }
      assert !OccursAt(r, HashComment, 0);
    }
  }

  /**
   * The patch applied before the second parse: every ", #" becomes ", //", none is
   * left afterwards, and a text without ", #" passes through unchanged.
   */
  function PatchHashComments(s: string): (r: string)
    ensures !Occurs(r, HashComment)
    ensures !Occurs(s, HashComment) ==> r == s
  {
    NoHashCommentLeft(s);
    if !Occurs(s, HashComment) then
      ReplaceAbsent(s, HashComment, SlashComment);
      Patched(s)
    else
      Patched(s)
  }

  /* ---------------- the handler ---------------- */

  /**
   * `apiKeys?.google || apiKeys?.deepseek || apiKeys?.qwen || apiKeys?.chatgpt`: the
   * switch between the long prompt (1000+ characters, 50 items) and the short one
   * (500+ characters, 20 items). It only shapes the prompt text.
   */
  function UseRichPrompt(apiKeys: Option<Json>): (rich: bool)
    ensures rich <==> exists k :: k in ["google", "deepseek", "qwen", "chatgpt"] && Present(Member(apiKeys, k))
    ensures !(apiKeys.Some? && apiKeys.value.JObject?) ==> !rich
  {
    var keys := ["google", "deepseek", "qwen", "chatgpt"];
    assert forall k :: k in keys <==> k == keys[0] || k == keys[1] || k == keys[2] || k == keys[3];
    Present(Member(apiKeys, "google")) || Present(Member(apiKeys, "deepseek"))
    || Present(Member(apiKeys, "qwen")) || Present(Member(apiKeys, "chatgpt"))
  }

  /**
   * Lines 80-113: clean the text, extract the candidate, parse it; only if that parse
   * fails, parse the patched candidate, whose outcome (value or error) is final.
   */
  method Normalize(text: string, repairParse: string -> Result<Json, string>)
    returns (candidate: string, parsed: Result<Json, string>)
    ensures IsCandidate(StripFences(text), candidate)
    ensures repairParse(candidate).Ok? ==> parsed == repairParse(candidate)
    ensures repairParse(candidate).Err? ==> parsed == repairParse(PatchHashComments(candidate))
  {
    var clean := StripFences(text);
    candidate := ExtractJson(clean);
    parsed := repairParse(candidate);
    if parsed.Err? {
      var patched := PatchHashComments(candidate);
      parsed := repairParse(patched);
    }
  }

  const FailurePrefix := "Failed to generate compliment: "

  /** The request body carries an `interests` array. */
  predicate ValidBody(body: Json)
  {
    var interests := Member(Some(body), "interests");
    interests.Some? && interests.value.JArray?
  }

  /** The `interests` array of a valid body. */
  function InterestList(body: Json): seq<Json>
    requires ValidBody(body)
  {
    Member(Some(body), "interests").value.items
  }

  /**
   * Some interest is `null`: building the prompt reads `item.title` of every interest
   * (lines 45-49), outside the `try`, and that read throws on `null`.
   */
  predicate NullInterest(body: Json)
    requires ValidBody(body)
  {
    exists i :: 0 <= i < |InterestList(body)| && InterestList(body)[i].JNull?
  }

  /** The `TypeError` raised by `text.replace` when the provider's text is undefined. */
  const UndefinedTextMessage := "Cannot read properties of undefined (reading 'replace')"

  /** The answer once the model's text has been parsed. */
  function Reply(model: string, parsed: Result<Json, string>): (resp: Response)
    ensures parsed.Err? ==> resp == HttpError(500, FailurePrefix + parsed.error)
    ensures parsed.Ok? ==>
      && resp.JsonBody? && resp.body.JObject?
      && "model" in resp.body.fields && resp.body.fields["model"] == JString(model)
      && resp.body.fields.Keys == SpreadFields(parsed.value).Keys + {"model"}
      && (forall k :: k in SpreadFields(parsed.value) && k != "model" ==>
            k in resp.body.fields && resp.body.fields[k] == SpreadFields(parsed.value)[k])
  {
    match parsed
    case Err(message) => HttpError(500, FailurePrefix + message)
    case Ok(value) => JsonBody(Merge(value, "model", JString(model)))
  }

  /**
   * `POST /api/compliment` (inside the rate-limit wrapper): a `null` body cannot be
   * destructured, so the framework answers 500; a 400 before any generation when
   * `interests` is not an array; a `null` interest makes building the prompt throw, so the
   * framework answers 500 before any generation; otherwise generate (the caller's
   * `apiKeys` do not reach the router), normalise, and answer the parsed object with
   * `model` set to the serving provider's display name. Every failure inside the `try`
   * becomes a 500 carrying the message, an undefined text included.
   */
  method Post(body: Json, cfg: Config, rand: real, replies: Provider -> VendorReply,
              repairParse: string -> Result<Json, string>)
    returns (resp: Response, calls: seq<Provider>)
    requires 0.0 <= rand < 1.0
    ensures body.JNull? ==> resp == InternalError && calls == []
    ensures !body.JNull? && !ValidBody(body) ==> resp == HttpError(400, "Invalid data") && calls == []
    ensures ValidBody(body) && NullInterest(body) ==> resp == InternalError && calls == []
    ensures ValidBody(body) && !NullInterest(body) ==> calls == Route(cfg, rand, replies).calls
    ensures ValidBody(body) && !NullInterest(body) && Route(cfg, rand, replies).result.Err? ==>
      resp == HttpError(500, FailurePrefix + Route(cfg, rand, replies).result.error)
    ensures ValidBody(body) && !NullInterest(body) && Route(cfg, rand, replies).result.Ok?
            && Route(cfg, rand, replies).result.value.text.None? ==>
      resp == HttpError(500, FailurePrefix + UndefinedTextMessage)
    ensures ValidBody(body) && !NullInterest(body) && Route(cfg, rand, replies).result.Ok?
            && Route(cfg, rand, replies).result.value.text.Some? ==>
      var generated := Route(cfg, rand, replies).result.value;
      exists candidate :: IsCandidate(StripFences(generated.text.value), candidate)
        && resp == Reply(generated.model,
             if repairParse(candidate).Ok? then repairParse(candidate)
             else repairParse(PatchHashComments(candidate)))
  {
    if body.JNull? {
      return InternalError, [];
    }
    if !ValidBody(body) {
      return HttpError(400, "Invalid data"), [];
    }
    var rich := UseRichPrompt(Member(Some(body), "apiKeys"));
    if NullInterest(body) {
      return InternalError, [];
    }
    var generated;
    generated, calls := GenerateRoast(cfg, rand, replies);
    if generated.Err? {
      return HttpError(500, FailurePrefix + generated.error), calls;
    }
    if generated.value.text.None? {
      return HttpError(500, FailurePrefix + UndefinedTextMessage), calls;
    }
    var candidate, parsed := Normalize(generated.value.text.value, repairParse);
    resp := Reply(generated.value.model, parsed);
  }
}
