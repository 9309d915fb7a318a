/** `parseJSONResponse`: recovering the JSON text from a model reply that may
    wrap it in a markdown fence or surround it with prose. `JSON.parse` itself
    is a parameter: the model says which string is handed to it, not what it
    accepts. */
module ResponseExtraction {
  import opened Wrappers
  import opened Strings

  const Fence := "```"

  /** The reply holds an opening fence and a closing fence that starts at
      least three characters later. */
  ghost predicate HasFencePair(text: string) {
    exists p, q :: OccursAt(text, p, Fence) && OccursAt(text, q, Fence) && p + 3 <= q
  }

  /** The reply holds a fence somewhere. */
  ghost predicate HasFence(s: string) {
    exists j :: OccursAt(s, j, Fence)
  }

  /** Where the capture group starts after an opening fence at `p`: past an
      optional `json` tag, then past the greedy `\s*`. */
  function CaptureStart(text: string, p: nat): (b: nat)
    requires p + 3 <= |text|
    ensures p + 3 <= b <= |text|
    ensures forall j :: p + 3 <= j < b ==> text[j] != '`'
    ensures b < |text| ==> !IsJsWhitespace(text[b])
  {
    var a := if OccursAt(text, p + 3, "json") then p + 7 else p + 3;
    assert forall j :: p + 3 <= j < a ==> text[j] == "json"[j - p - 3];
    a + LeadingWs(text[a..])
  }

  /** A fence at `q` starts with a backtick. */
  lemma FenceStartsWithBacktick(s: string, q: int)
    requires OccursAt(s, q, Fence)
    ensures s[q] == '`'
  {
    assert s[q..q + 3][0] == s[q];
  }

  /** The capture group of ```` /```(?:json)?\s*([\s\S]*?)```/ ````. The match
      starts at the first fence; the lazy body stops at the first closing fence
      after the tag and the whitespace. Backtracking into the tag or the
      whitespace never finds another closing fence, because neither holds a
      backtick, so one search suffices. */
  function FenceCapture(text: string): (r: Option<string>)
    ensures r.Some? <==> HasFencePair(text)
    ensures r.Some? ==> exists p, q ::
      OccursAt(text, p, Fence) && (forall j :: 0 <= j < p ==> !OccursAt(text, j, Fence))
      && CaptureStart(text, p) <= q && OccursAt(text, q, Fence)
      && r.value == text[CaptureStart(text, p)..q]
    ensures r.Some? ==> !HasFence(r.value)
  {
    match FindFrom(text, Fence, 0)
    case None => None
    case Some(p) =>
      var b := CaptureStart(text, p);
      match FindFrom(text, Fence, b)
      case None =>
        assert !HasFencePair(text) by {
          forall p', q' | OccursAt(text, p', Fence) && OccursAt(text, q', Fence) && p' + 3 <= q'
            ensures false
          {
            FenceStartsWithBacktick(text, q');
          }
        }
        None
      case Some(q) =>
        var body := text[b..q];
        assert !HasFence(body) by {
          forall j | OccursAt(body, j, Fence) ensures false {
            OccursInSlice(text, b, q, j, Fence);
          }
        }
        Some(body)
  }

  /** The match of `/\{[\s\S]*\}/` (with `open`/`close` the braces) or of
      `/\[[\s\S]*\]/`: from the first opening character to the last closing
      one, when the first comes before the last. */
  function Span(s: string, open: char, close: char): (r: Option<string>)
    ensures r.Some? <==>
      FirstIndexOf(s, open).Some? && LastIndexOf(s, close).Some?
      && FirstIndexOf(s, open).value < LastIndexOf(s, close).value
    ensures r.Some? ==> 2 <= |r.value| && r.value[0] == open && r.value[|r.value| - 1] == close
    ensures r.Some? ==>
      OccursAt(s, FirstIndexOf(s, open).value, r.value)
      && FirstIndexOf(s, open).value + |r.value| == LastIndexOf(s, close).value + 1
  {
    match (FirstIndexOf(s, open), LastIndexOf(s, close))
    case (Some(f), Some(l)) =>
      if f < l then
        assert OccursAt(s, f, s[f..l + 1]);
        Some(s[f..l + 1])
      else None
    case _ => None
  }

  /** A span exists exactly when some opening character precedes some
      closing one. */
  lemma SpanExists(s: string, open: char, close: char)
    ensures Span(s, open, close).Some? <==> exists i, j :: 0 <= i < j < |s| && s[i] == open && s[j] == close
  {
    if i, j :| 0 <= i < j < |s| && s[i] == open && s[j] == close {
      assert FirstIndexOf(s, open).value <= i;
      assert j <= LastIndexOf(s, close).value;
    }
  }

  /** The text the spans are searched in: the fence capture if there is one,
      otherwise the whole reply. */
  function Unfenced(text: string): (s: string)
    ensures HasFencePair(text) ==> !HasFence(s)
    ensures !HasFencePair(text) ==> s == text
  {
    FenceCapture(text).GetOr(text)
  }

  /** The span choice as the code is written: the object span is taken
      whenever there is one, even when an array opens first. */
  function SelectAsWritten(s: string): (c: string)
  {
    match Span(s, '{', '}')
    case Some(o) => o
    case None =>
      match Span(s, '[', ']')
      case Some(a) => a
      case None => s
  }

  /** Both spans exist and the array's strictly surrounds the object's: the
      first `[` comes before the first `{`, which comes before the last `}`,
      which comes before the last `]`. */
  predicate ArrayEncloses(s: string) {
    match (FirstIndexOf(s, '['), FirstIndexOf(s, '{'), LastIndexOf(s, '}'), LastIndexOf(s, ']'))
    case (Some(a), Some(o), Some(c), Some(b)) => a < o < c < b
    case _ => false
  }

  /** The corrected span choice: the object span as before, unless the array
      span encloses it, in which case the array is taken whole. A top-level
      array of objects then survives, while a bracketed aside such as
      `[v1]` before an object still leaves the object chosen. */
  function Select(s: string): (c: string)
  {
    var obj := Span(s, '{', '}');
    var arr := Span(s, '[', ']');
    if arr.Some? && (obj.None? || ArrayEncloses(s)) then arr.value
    else if obj.Some? then obj.value
    else s
  }

  /** The string handed to `trim` as the code is written. */
  function CandidateAsWritten(text: string): string {
    SelectAsWritten(Unfenced(text))
  }

  /** The string handed to `trim`, with the corrected span choice. */
  function Candidate(text: string): string {
    Select(Unfenced(text))
  }

  /** `parseJSONResponse`: `JSON.parse` of the trimmed candidate, whose
      failure is the thrown `SyntaxError`. */
  function ParseJSONResponse<T>(text: string, parse: string -> Option<T>): (r: Result<T, string>)
    ensures r.Success? <==> parse(Trim(CandidateAsWritten(text))).Some?
    ensures r.Success? ==> Some(r.value) == parse(Trim(CandidateAsWritten(text)))
  {
    match parse(Trim(CandidateAsWritten(text)))
    case Some(v) => Success(v)
    case None => Failure("SyntaxError")
  }

  /** `parseJSONResponse` with the corrected span choice. */
  function ParseJSONResponseCorrected<T>(text: string, parse: string -> Option<T>): (r: Result<T, string>)
    ensures r.Success? <==> parse(Trim(Candidate(text))).Some?
    ensures r.Success? ==> Some(r.value) == parse(Trim(Candidate(text)))
  {
    match parse(Trim(Candidate(text)))
    case Some(v) => Success(v)
    case None => Failure("SyntaxError")
  }

  // ------------------------------------------------------------- properties

  /** As written, the object span wins whenever it exists; the array span is
      taken only when there is no object span, and the searched text itself
      when there is neither. */
  lemma ObjectSpanPreferred(s: string)
    ensures Span(s, '{', '}').Some? ==> SelectAsWritten(s) == Span(s, '{', '}').value
    ensures Span(s, '{', '}').None? && Span(s, '[', ']').Some? ==> SelectAsWritten(s) == Span(s, '[', ']').value
    ensures Span(s, '{', '}').None? && Span(s, '[', ']').None? ==> SelectAsWritten(s) == s
  {
  }

  /** The correction changes the choice only where the array span encloses
      the object span, and there it takes the array span. */
  lemma CorrectionOnlyWhenEnclosed(s: string)
    ensures !ArrayEncloses(s) ==> Select(s) == SelectAsWritten(s)
    ensures ArrayEncloses(s) ==> Span(s, '[', ']').Some? && Select(s) == Span(s, '[', ']').value
  {
  }

  /** The JSON text starts and ends with matching brackets. */
  predicate Bracketed(t: string) {
    2 <= |t| && ((t[0] == '{' && t[|t| - 1] == '}') || (t[0] == '[' && t[|t| - 1] == ']'))
  }

  /** An object, or an array with no `{` before a `}` inside it: the JSON
      texts the code as written takes whole. */
  predicate ObjectOrFlatArray(t: string) {
    Bracketed(t) && (t[0] == '{' || Span(t, '{', '}').None?)
  }

  /** Prose before the JSON opens no bracket; prose after it closes none. */
  predicate ProseBefore(w: string) {
    forall i :: 0 <= i < |w| ==> w[i] != '{' && w[i] != '['
  }

  predicate ProseAfter(w: string) {
    forall i :: 0 <= i < |w| ==> w[i] != '}' && w[i] != ']'
  }

  /** Between prose free of its brackets, a bracketed text holds the first
      opening and the last closing bracket. */
  lemma IndexesOfWrapped(w1: string, t: string, w2: string, open: char, close: char)
    requires forall i :: 0 <= i < |w1| ==> w1[i] != open
    requires forall i :: 0 <= i < |w2| ==> w2[i] != close
    requires 2 <= |t| && t[0] == open && t[|t| - 1] == close
    ensures FirstIndexOf(w1 + t + w2, open) == Some(|w1|)
    ensures LastIndexOf(w1 + t + w2, close) == Some(|w1| + |t| - 1)
  {
    var s := w1 + t + w2;
    assert s[|w1|] == open;
    assert s[|w1| + |t| - 1] == close;
    assert forall k :: 0 <= k < |w1| ==> s[k] == w1[k];
    assert forall k :: |w1| + |t| <= k < |s| ==> s[k] == w2[k - |w1| - |t|];
  }

  /** A bracketed text between bracket-free prose is exactly the span of its
      own brackets. */
  lemma SpanOfWrapped(w1: string, t: string, w2: string, open: char, close: char)
    requires forall i :: 0 <= i < |w1| ==> w1[i] != open
    requires forall i :: 0 <= i < |w2| ==> w2[i] != close
    requires 2 <= |t| && t[0] == open && t[|t| - 1] == close
    ensures FirstIndexOf(w1 + t + w2, open) == Some(|w1|)
    ensures LastIndexOf(w1 + t + w2, close) == Some(|w1| + |t| - 1)
    ensures Span(w1 + t + w2, open, close) == Some(t)
  {
    IndexesOfWrapped(w1, t, w2, open, close);
    var s := w1 + t + w2;
    assert s[|w1|..|w1| + |t|] == t;
  }

  /** Prose that opens no brace before a text and closes none after it adds
      no object span to a text that has none. */
  lemma NoObjectSpanAround(w1: string, t: string, w2: string)
    requires ProseBefore(w1) && ProseAfter(w2) && Span(t, '{', '}').None?
    ensures Span(w1 + t + w2, '{', '}').None?
  {
    var s := w1 + t + w2;
    SpanExists(t, '{', '}');
    SpanExists(s, '{', '}');
    forall i, j | 0 <= i < j < |s| ensures !(s[i] == '{' && s[j] == '}') {
      if i < |w1| {
        assert s[i] == w1[i];
      } else if |w1| + |t| <= j {
        assert s[j] == w2[j - |w1| - |t|];
      } else {
        assert s[i] == t[i - |w1|] && s[j] == t[j - |w1|];
      }
    }
  }

  /** As written, a bracketed text between bracket-free prose is taken whole
      when it is an object, or an array with no object span inside. */
  lemma SelectOfWrapped(w1: string, t: string, w2: string)
    requires ProseBefore(w1) && ProseAfter(w2) && ObjectOrFlatArray(t)
    ensures SelectAsWritten(w1 + t + w2) == t
  {
    if t[0] == '{' {
      SpanOfWrapped(w1, t, w2, '{', '}');
    } else {
      NoObjectSpanAround(w1, t, w2);
      SpanOfWrapped(w1, t, w2, '[', ']');
    }
  }

  /** An object between bracket-free prose is not enclosed by an array: no
      `[` comes before its `{`. */
  lemma ObjectWrappedNotEnclosed(w1: string, t: string, w2: string)
    requires ProseBefore(w1) && ProseAfter(w2)
    requires 2 <= |t| && t[0] == '{' && t[|t| - 1] == '}'
    ensures !ArrayEncloses(w1 + t + w2)
  {
    var s := w1 + t + w2;
    SpanOfWrapped(w1, t, w2, '{', '}');
    assert forall k :: 0 <= k < |w1| ==> s[k] == w1[k];
  }

  /** An array between bracket-free prose encloses every object span of the
      whole text. */
  lemma ArrayWrappedEncloses(w1: string, t: string, w2: string)
    requires ProseBefore(w1) && ProseAfter(w2)
    requires 2 <= |t| && t[0] == '[' && t[|t| - 1] == ']'
    requires FirstIndexOf(w1 + t + w2, '{').Some? && LastIndexOf(w1 + t + w2, '}').Some?
    requires FirstIndexOf(w1 + t + w2, '{').value < LastIndexOf(w1 + t + w2, '}').value
    ensures ArrayEncloses(w1 + t + w2)
  {
    var s := w1 + t + w2;
    IndexesOfWrapped(w1, t, w2, '[', ']');
    var a, b := |w1|, |w1| + |t| - 1;
    var o, c := FirstIndexOf(s, '{').value, LastIndexOf(s, '}').value;
    assert a < o by {
      assert s[a] == '[';
      assert forall k :: 0 <= k < |w1| ==> s[k] == w1[k];
    }
    assert c < b by {
      assert s[b] == ']';
      assert forall k :: |w1| + |t| <= k < |s| ==> s[k] == w2[k - |w1| - |t|];
    }
  }

  /** The corrected choice takes a bracketed text between bracket-free prose
      whole, whether it is an object or an array, objects inside included. */
  lemma SelectCorrectedOfWrapped(w1: string, t: string, w2: string)
    requires ProseBefore(w1) && ProseAfter(w2) && Bracketed(t)
    ensures Select(w1 + t + w2) == t
  {
    var s := w1 + t + w2;
    CorrectionOnlyWhenEnclosed(s);
    ObjectSpanPreferred(s);
    if t[0] == '{' {
      SpanOfWrapped(w1, t, w2, '{', '}');
      ObjectWrappedNotEnclosed(w1, t, w2);
    } else {
      SpanOfWrapped(w1, t, w2, '[', ']');
      if Span(s, '{', '}').Some? {
        ArrayWrappedEncloses(w1, t, w2);
      }
    }
  }

  /** Whatever trimmed candidate a reply yields is what `JSON.parse` decides
      on, for either choice of span. */
  lemma ParsedCandidate<T>(text: string, t: string, parse: string -> Option<T>)
    requires !HasFencePair(text)
    ensures CandidateAsWritten(text) == SelectAsWritten(text) && Candidate(text) == Select(text)
    ensures Trim(SelectAsWritten(text)) == t ==> (ParseJSONResponse(text, parse).Success? <==> parse(t).Some?)
    ensures Trim(Select(text)) == t ==> (ParseJSONResponseCorrected(text, parse).Success? <==> parse(t).Some?)
  {
  }

  /** A reply without a fenced block whose JSON sits between bracket-free
      prose hands exactly the JSON to `JSON.parse`, when it is an object or
      an array with no object inside. */
  lemma ProseWrappedReply<T>(w1: string, t: string, w2: string, parse: string -> Option<T>)
    requires !HasFencePair(w1 + t + w2)
    requires ProseBefore(w1) && ProseAfter(w2) && ObjectOrFlatArray(t)
    ensures Trim(CandidateAsWritten(w1 + t + w2)) == t
    ensures ParseJSONResponse(w1 + t + w2, parse).Success? <==> parse(t).Some?
  {
    SelectOfWrapped(w1, t, w2);
    TrimOfBracketed(t);
    ParsedCandidate(w1 + t + w2, t, parse);
  }

  /** With the corrected choice the same holds of every bracketed JSON text,
      arrays of objects included. */
  lemma ProseWrappedReplyCorrected<T>(w1: string, t: string, w2: string, parse: string -> Option<T>)
    requires !HasFencePair(w1 + t + w2)
    requires ProseBefore(w1) && ProseAfter(w2) && Bracketed(t)
    ensures Trim(Candidate(w1 + t + w2)) == t
    ensures ParseJSONResponseCorrected(w1 + t + w2, parse).Success? <==> parse(t).Some?
  {
    SelectCorrectedOfWrapped(w1, t, w2);
    TrimOfBracketed(t);
    ParsedCandidate(w1 + t + w2, t, parse);
  }

  /** A reply that is nothing but an object, or an array with no object
      inside, and whitespace is parsed as `JSON.parse(text.trim())`. */
  lemma BareReply<T>(text: string, parse: string -> Option<T>)
    requires !HasFencePair(text) && ObjectOrFlatArray(Trim(text))
    ensures Trim(CandidateAsWritten(text)) == Trim(text)
    ensures ParseJSONResponse(text, parse).Success? <==> parse(Trim(text)).Some?
  {
    var t := Trim(text);
    var n := LeadingWs(text);
    var w1, w2 := text[..n], text[n + |t|..];
    assert forall i :: 0 <= i < |w1| ==> IsJsWhitespace(w1[i]);
    assert forall i :: 0 <= i < |w2| ==> IsJsWhitespace(w2[i]) by {
      forall i | 0 <= i < |w2| ensures IsJsWhitespace(w2[i]) {
        assert w2[i] == text[n + |t| + i];
      }
    }
    WhitespaceIsProse(w1);
    WhitespaceIsProse(w2);
    assert text == w1 + t + w2;
    ProseWrappedReply(w1, t, w2, parse);
  }

  /** The capture when the first fence is at `p` and the first fence after
      the tag and whitespace is at `q`. */
  lemma FenceCaptureOf(text: string, p: nat, q: nat, capture: string)
    requires OccursAt(text, p, Fence) && forall j :: 0 <= j < p ==> !OccursAt(text, j, Fence)
    requires CaptureStart(text, p) <= q && OccursAt(text, q, Fence)
    requires forall j :: CaptureStart(text, p) <= j < q ==> !OccursAt(text, j, Fence)
    requires capture == text[CaptureStart(text, p)..q]
    ensures Unfenced(text) == capture
  {
    FindFromUnique(text, Fence, 0, p);
    FindFromUnique(text, Fence, CaptureStart(text, p), q);
  }

  /** An opening shaped like ```` ```json ````: seven characters, a fence,
      then the tag. */
  predicate TaggedOpening(open: string) {
    |open| == 7 && OccursAt(open, 0, Fence) && OccursAt(open, 3, "json")
  }

  /** No fence starts inside a body without backticks. */
  lemma NoFenceInBody(open: string, body: string, from: nat)
    requires |open| == 7 && forall i :: 0 <= i < |body| ==> body[i] != '`'
    ensures forall j :: 7 + from <= j < 7 + |body| ==> !OccursAt(open + (body + Fence), j, Fence)
  {
    var text := open + (body + Fence);
    forall j | 7 + from <= j < 7 + |body| ensures !OccursAt(text, j, Fence) {
      assert text[j] == body[j - 7];
      if OccursAt(text, j, Fence) {
        FenceStartsWithBacktick(text, j);
      }
    }
  }

  /** After a tagged opening, a body without backticks and a closing fence,
      the fence capture is the body past its leading whitespace. */
  lemma FencedCapture(text: string, open: string, body: string)
    requires TaggedOpening(open)
    requires forall i :: 0 <= i < |body| ==> body[i] != '`'
    requires text == open + (body + Fence)
    ensures Unfenced(text) == body[LeadingWs(body)..]
  {
    var rest := body + Fence;
    var q := 7 + |body|;
    OccursInPrefix(open, rest, 0, Fence);
    OccursInPrefix(open, rest, 3, "json");
    assert text[7..] == rest;
    LeadingWsAppend(body, Fence);
    var n := LeadingWs(body);
    assert CaptureStart(text, 0) == 7 + n;
    OccursAtEnd(body, Fence);
    OccursInSuffix(open, rest, |body|, Fence);
    NoFenceInBody(open, body, n);
    SliceOfMiddle(open, body, Fence, n);
    FenceCaptureOf(text, 0, q, body[n..]);
  }

  /** After a tagged opening, a body without backticks whose trimmed form is
      an object or an array with no object inside, and a closing fence, the
      trimmed body is what `JSON.parse` receives. */
  lemma FencedReplyAfter<T>(text: string, open: string, body: string, parse: string -> Option<T>)
    requires TaggedOpening(open)
    requires forall i :: 0 <= i < |body| ==> body[i] != '`'
    requires ObjectOrFlatArray(Trim(body))
    requires text == open + (body + Fence)
    ensures Trim(CandidateAsWritten(text)) == Trim(body)
    ensures ParseJSONResponse(text, parse).Success? <==> parse(Trim(body)).Some?
  {
    FencedCapture(text, open, body);
    SelectPastLeadingWs(body);
    assert CandidateAsWritten(text) == Trim(body);
    TrimOfBracketed(Trim(body));
  }

  /** Bracketed text has nothing to trim. */
  lemma TrimOfBracketed(t: string)
    requires Bracketed(t)
    ensures Trim(t) == t
  {
    TrimOfUnpadded(t);
  }

  /** Past its leading whitespace, a body whose trimmed form is an object or
      an array with no object inside yields that trimmed form as its span. */
  lemma SelectPastLeadingWs(body: string)
    requires ObjectOrFlatArray(Trim(body))
    ensures SelectAsWritten(body[LeadingWs(body)..]) == Trim(body)
  {
    var t := Trim(body);
    var n := LeadingWs(body);
    var w2 := body[n + |t|..];
    assert forall i :: 0 <= i < |w2| ==> IsJsWhitespace(w2[i]) by {
      forall i | 0 <= i < |w2| ensures IsJsWhitespace(w2[i]) {
        assert w2[i] == body[n + |t| + i];
      }
    }
    WhitespaceIsProse(w2);
    assert body[n..] == "" + t + w2;
    SelectOfWrapped("", t, w2);
  }

  /** Whitespace opens and closes no bracket. */
  lemma WhitespaceIsProse(w: string)
    requires forall i :: 0 <= i < |w| ==> IsJsWhitespace(w[i])
    ensures ProseBefore(w) && ProseAfter(w)
  {
  }

  /** A reply fenced as ```` ```json ```` … ```` ``` ```` around a body without
      backticks hands the trimmed body to `JSON.parse`, when that is an
      object or an array with no object inside. */
  lemma FencedReply<T>(body: string, parse: string -> Option<T>)
    requires forall i :: 0 <= i < |body| ==> body[i] != '`'
    requires ObjectOrFlatArray(Trim(body))
    ensures Trim(CandidateAsWritten("```json" + (body + "```"))) == Trim(body)
    ensures ParseJSONResponse("```json" + (body + "```"), parse).Success? <==> parse(Trim(body)).Some?
  {
    assert TaggedOpening("```json");
    FencedReplyAfter("```json" + (body + "```"), "```json", body, parse);
  }

  /** The fence capture, when there is one, is a slice of the reply. */
  lemma UnfencedIsSlice(text: string) returns (lo: nat, hi: nat)
    ensures lo <= hi <= |text| && Unfenced(text) == text[lo..hi]
  {
    match FenceCapture(text)
    case Some(body) =>
      var p, q :| OccursAt(text, p, Fence) && (forall j :: 0 <= j < p ==> !OccursAt(text, j, Fence))
        && CaptureStart(text, p) <= q && OccursAt(text, q, Fence)
        && body == text[CaptureStart(text, p)..q];
      lo, hi := CaptureStart(text, p), q;
    case None =>
      lo, hi := 0, |text|;
  }

  /** Either choice of span is a slice of the searched text. */
  lemma SelectIsSlice(s: string) returns (i: int, j: int)
    ensures OccursAt(s, i, SelectAsWritten(s))
    ensures OccursAt(s, j, Select(s))
  {
    var obj := Span(s, '{', '}');
    var arr := Span(s, '[', ']');
    var io := if obj.Some? then FirstIndexOf(s, '{').value else 0;
    var ia := if arr.Some? then FirstIndexOf(s, '[').value else 0;
    assert OccursAt(s, 0, s);
    i := if obj.Some? then io else if arr.Some? then ia else 0;
    j := if arr.Some? && (obj.None? || ArrayEncloses(s)) then ia else if obj.Some? then io else 0;
  }

  /** Whatever the reply, the candidate is a contiguous slice of it, as
      written and corrected alike. */
  lemma CandidateIsInfix(text: string)
    ensures IsInfix(CandidateAsWritten(text), text)
    ensures IsInfix(Candidate(text), text)
  {
    var lo, hi := UnfencedIsSlice(text);
    var i, j := SelectIsSlice(Unfenced(text));
    OccursInSlice(text, lo, hi, i, CandidateAsWritten(text));
    OccursInSlice(text, lo, hi, j, Candidate(text));
  }

  /** The code as written misreads a bare array of objects: it hands the
      inner `{},{}` to `JSON.parse`, which throws; the corrected choice hands
      over the whole array. */
  lemma ArrayOfObjectsAsWritten()
    ensures CandidateAsWritten("[{},{}]") == "{},{}"
    ensures Candidate("[{},{}]") == "[{},{}]"
  {
    var text := "[{},{}]";
    assert !HasFencePair(text) by {
      forall p, q | OccursAt(text, p, Fence) && OccursAt(text, q, Fence) && p + 3 <= q ensures false {
        FenceStartsWithBacktick(text, p);
      }
    }
    assert text == "[" + "{},{}" + "]";
    SpanOfWrapped("[", "{},{}", "]", '{', '}');
    SelectCorrectedOfWrapped("", text, "");
    assert "" + text + "" == text;
  }

  /** A bracketed aside before an object leaves the object chosen, as
      written and corrected alike. */
  lemma AsideBeforeObject()
    ensures SelectAsWritten("x[a]{}") == "{}"
    ensures Select("x[a]{}") == "{}"
  {
    var s := "x[a]{}";
    assert s == "x[a]" + "{}" + "";
    SpanOfWrapped("x[a]", "{}", "", '{', '}');
    SpanOfWrapped("x", "[a]", "{}", '[', ']');
    assert !ArrayEncloses(s);
  }
}
