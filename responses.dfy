/** Reading one per-window answer of the model into a scored prediction. */
module Responses {
  import opened Results
  import opened Lib

  /** A decoded JSON value, as far as `query_model_and_compare` looks into it. */
  datatype Json = JString(text: string) | JObject(fields: map<string, Json>) | JOther

  /** `s.replace(pat, "")`: every non-overlapping occurrence of `pat`, found left to right, removed. */
  function RemoveAll(s: string, pat: string): (r: string)
    requires |pat| > 0
    ensures |r| <= |s|
    decreases |s|
  {
    if |s| < |pat| then s
    else if s[..|pat|] == pat then RemoveAll(s[|pat|..], pat)
    else [s[0]] + RemoveAll(s[1..], pat)
  }

  const Fence: string := "```"
  const JsonFence: string := "```json"

  /** Removes the code-fence markers the model may wrap its JSON in; the text never grows. */
  function StripFences(response: string): (r: string)
    ensures |r| <= |response|
  {
    RemoveAll(RemoveAll(response, JsonFence), Fence)
  }

  /** No three backticks in a row. */
  predicate NoFence(s: string) {
    forall k :: 0 <= k < |s| - 2 ==> !(s[k] == '`' && s[k + 1] == '`' && s[k + 2] == '`')
  }

  /** A string that does not start with the pattern keeps its first character. */
  lemma RemoveAllHead(s: string, pat: string)
    requires |pat| > 0 && |s| > 0
    requires !(|s| >= |pat| && s[..|pat|] == pat)
    ensures |RemoveAll(s, pat)| > 0 && RemoveAll(s, pat)[0] == s[0]
  {
  }

  lemma {:induction false} RemoveFencesLeavesNone(s: string)
    ensures NoFence(RemoveAll(s, Fence))
    decreases |s|
  {
    var r := RemoveAll(s, Fence);
    if |s| < 3 {
    } else if s[..3] == Fence {
      RemoveFencesLeavesNone(s[3..]);
    } else {
      var rest := RemoveAll(s[1..], Fence);
      RemoveFencesLeavesNone(s[1..]);
      assert r == [s[0]] + rest;
      if s[0] == '`' && |rest| >= 2 {
        if s[1] != '`' {
          RemoveAllHead(s[1..], Fence);
        } else {
          assert s[2] != '`';
          if |s| > 3 {
            assert s[1..][..3][1] == s[2];
            RemoveAllHead(s[2..], Fence);
            assert rest == [s[1]] + RemoveAll(s[2..], Fence);
          }
        }
      }
    }
  }

  /** After stripping, no code-fence marker is left, however the markers were nested. */
  lemma StripFencesComplete(response: string)
    ensures NoFence(StripFences(response))
  {
    RemoveFencesLeavesNone(RemoveAll(response, JsonFence));
  }

  /** Text without a marker's first character is left as it is. */
  lemma {:induction false} RemoveAllAbsent(s: string, pat: string)
    requires |pat| > 0 && pat[0] !in s
    ensures RemoveAll(s, pat) == s
    decreases |s|
  {
    if |s| >= |pat| {
      assert s[..|pat|][0] == s[0];
      RemoveAllAbsent(s[1..], pat);
    }
  }

  /** Text that cannot start a marker passes through in front of whatever follows it. */
  lemma {:induction false} RemoveAllPrefix(x: string, tail: string, pat: string)
    requires |pat| > 0 && pat[0] !in x
    ensures RemoveAll(x + tail, pat) == x + RemoveAll(tail, pat)
    decreases |x|
  {
    if x == [] {
      assert x + tail == tail;
    } else {
      var s := x + tail;
      assert s[0] == x[0] && x[0] != pat[0];
      if |s| >= |pat| {
        assert s[..|pat|] != pat by {
          assert s[..|pat|][0] == x[0];
        }
        assert RemoveAll(s, pat) == [x[0]] + RemoveAll(s[1..], pat);
        assert s[1..] == x[1..] + tail;
        assert pat[0] !in x[1..] by {
          assert forall c :: c in x[1..] ==> c in x;
        }
        RemoveAllPrefix(x[1..], tail, pat);
        assert x == [x[0]] + x[1..];
      }
    }
  }

  /** A JSON answer wrapped in a `json` code fence reaches the decoder without the fence. */
  lemma StripFencedJson(x: string)
    requires '`' !in x
    ensures StripFences(JsonFence + x + Fence) == x
  {
    assert (JsonFence + x + Fence)[..|JsonFence|] == JsonFence;
    assert (JsonFence + x + Fence)[|JsonFence|..] == x + Fence;
    RemoveAllPrefix(x, Fence, JsonFence);
    RemoveAllPrefix(x, Fence, Fence);
    assert Fence[..|Fence|] == Fence;
    assert x + [] == x;
  }

  /** An answer without backticks reaches the decoder unchanged. */
  lemma StripFencesPlain(response: string)
    requires '`' !in response
    ensures StripFences(response) == response
  {
    RemoveAllAbsent(response, JsonFence);
    RemoveAllAbsent(response, Fence);
  }

  /** The action named in the answer; any string other than "long" and "short" means None. */
  function ParseAction(s: string): (r: Action)
    ensures r == Long <==> s == "long"
    ensures r == Short <==> s == "short"
    ensures r == None <==> s != "long" && s != "short"
  {
    match s
    case "long" => Long
    case "short" => Short
    case "none" => None
    case _ => None
  }

  /** `val.get(key).and_then(as_str)`: a string field of an object, if there is one. */
  function StringField(v: Json, key: string): Option<string> {
    if v.JObject? && key in v.fields && v.fields[key].JString? then Some(v.fields[key].text)
    else Nothing
  }

  /** A window result: its end index, the prediction, the ground-truth label (`truth`), the rationale. */
  datatype Scored = Scored(window: nat, pred: Action, truth: Action, rationale: string)

  /**
   * `query_model_and_compare` after the model call, tagged with its window index:
   * the call's failure, an undecodable answer or a missing `action` string abort; a missing
   * `rationale` is empty.
   */
  function Interpret(answer: Result<string, Error>, decode: string -> Option<Json>, window: nat,
                     truth: Action): (r: Result<Scored, Error>)
    ensures r.Ok? ==> r.value.window == window && r.value.truth == truth
    ensures answer.Err? ==> r == Err(answer.error)
  {
    match answer
    case Err(e) => Err(e)
    case Ok(text) =>
      match decode(StripFences(text))
      case Nothing => Err(NotJson)
      case Some(v) =>
        match StringField(v, "action")
        case Nothing => Err(MissingAction)
        case Some(action) =>
          var rationale := match StringField(v, "rationale") case Some(t) => t case Nothing => "";
          Ok(Scored(window, ParseAction(action), truth, rationale))
  }

  /** A malformed answer is never scored, not even as a None prediction: it aborts the pass. */
  lemma MalformedAnswerAborts(text: string, decode: string -> Option<Json>, window: nat, truth: Action)
    requires decode(StripFences(text)).Nothing? || StringField(decode(StripFences(text)).value, "action").Nothing?
    ensures Interpret(Ok(text), decode, window, truth).Err?
  {
  }

  /** A well-formed answer is scored with the action it names. */
  lemma WellFormedAnswerScored(text: string, decode: string -> Option<Json>, window: nat,
                               truth: Action, v: Json, action: string)
    requires decode(StripFences(text)) == Some(v)
    requires StringField(v, "action") == Some(action)
    ensures Interpret(Ok(text), decode, window, truth).Ok?
    ensures Interpret(Ok(text), decode, window, truth).value.pred == ParseAction(action)
    ensures StringField(v, "rationale").Nothing? ==>
      Interpret(Ok(text), decode, window, truth).value.rationale == ""
    ensures StringField(v, "rationale").Some? ==>
      Interpret(Ok(text), decode, window, truth).value.rationale == StringField(v, "rationale").value
  {
  }
}
