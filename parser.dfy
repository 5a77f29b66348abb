/** Validation of a model's free-form reply (parseAIResponse): pick the first
    fenced `json` block or else the whole text, drop control characters, trim,
    decode, check that the three horizons are present and rescale each
    horizon's up/down/flat split when it is more than 0.01 away from 1.

    JSON decoding itself is not modelled: it is a partial function passed in
    by the caller, yielding the `windows` object (when there is one) already
    typed as forecasts, and the `reasoning` text. */
module Parser {
  import opened Shapes
  import opened Numeric

  const OpeningFence: string := "```json"
  const ClosingFence: string := "```"

  /** What the decoder yields for a JSON object: its `windows` member, if it
      is an object, keyed by horizon name, and its `reasoning` member. */
  datatype Decoded = Decoded(windows: Option<map<string, WindowPrediction>>, reasoning: string)

  /** U+0000 to U+001F and U+007F to U+009F. */
  predicate IsControl(c: char) {
    c <= '\U{1F}' || ('\U{7F}' <= c <= '\U{9F}')
  }

  /** JavaScript's `\s`, which is also the set String.prototype.trim removes. */
  predicate IsWhitespace(c: char) {
    || c == '\t' || c == '\n' || c == '\U{B}' || c == '\U{C}' || c == '\r' || c == ' '
    || c == '\U{A0}' || c == '\U{1680}' || ('\U{2000}' <= c <= '\U{200A}')
    || c == '\U{2028}' || c == '\U{2029}' || c == '\U{202F}' || c == '\U{205F}'
    || c == '\U{3000}' || c == '\U{FEFF}'
  }

  predicate OccursAt(s: string, pat: string, i: nat) {
    i + |pat| <= |s| && s[i..i + |pat|] == pat
  }

  /** The first occurrence of `pat` in `s` at or after `from`. */
  function FindFrom(s: string, pat: string, from: nat): (r: Option<nat>)
    decreases |s| - from
    ensures r.Some? ==> from <= r.value && OccursAt(s, pat, r.value)
    ensures r.Some? ==> forall j: nat :: from <= j < r.value ==> !OccursAt(s, pat, j)
    ensures r.None? ==> forall j: nat :: from <= j ==> !OccursAt(s, pat, j)
  {
    if |s| < from + |pat| then None
    else if OccursAt(s, pat, from) then Some(from)
    else FindFrom(s, pat, from + 1)
  }

  /** The end of the run of whitespace that starts at `i`. */
  function SkipWhitespace(s: string, i: nat): (k: nat)
    requires i <= |s|
    decreases |s| - i
    ensures i <= k <= |s|
    ensures forall j :: i <= j < k ==> IsWhitespace(s[j])
    ensures k < |s| ==> !IsWhitespace(s[k])
  {
    if i < |s| && IsWhitespace(s[i]) then SkipWhitespace(s, i + 1) else i
  }

  /** The start of the run of whitespace that ends at `hi`, not going below `lo`. */
  function BackOverWhitespace(s: string, lo: nat, hi: nat): (k: nat)
    requires lo <= hi <= |s|
    decreases hi - lo
    ensures lo <= k <= hi
    ensures forall j :: k <= j < hi ==> IsWhitespace(s[j])
    ensures lo < k ==> !IsWhitespace(s[k - 1])
  {
    if lo < hi && IsWhitespace(s[hi - 1]) then BackOverWhitespace(s, lo, hi - 1) else hi
  }

  /** The match of /```json\s*([\s\S]*?)\s*```/: the contents of the first
      fenced json block without surrounding whitespace, or the whole text
      when there is no such block. */
  function ExtractJson(text: string): (r: string)
    ensures (forall j: nat :: !OccursAt(text, OpeningFence, j)) ==> r == text
  {
    match FindFrom(text, OpeningFence, 0)
    case None => text
    case Some(p) =>
      var start := SkipWhitespace(text, p + |OpeningFence|);
      match FindFrom(text, ClosingFence, start)
      case None => text
      case Some(q) => text[start..BackOverWhitespace(text, start, q)]
  }

  /** When the first opening fence has no closing fence after it, the
      pattern does not match and the whole text is decoded. */
  lemma UnclosedFenceKeepsText(text: string, p: nat)
    requires OccursAt(text, OpeningFence, p)
    requires forall j: nat :: j < p ==> !OccursAt(text, OpeningFence, j)
    requires forall j: nat :: p + |OpeningFence| <= j ==> !OccursAt(text, ClosingFence, j)
    ensures ExtractJson(text) == text
  {
    assert FindFrom(text, OpeningFence, 0) == Some(p);
    var start := SkipWhitespace(text, p + |OpeningFence|);
    assert FindFrom(text, ClosingFence, start).None?;
  }

  /** `s.replace(/[\u0000-\u001F\u007F-\u009F]/g, '')`. */
  function StripControl(s: string): (r: string)
    ensures forall i :: 0 <= i < |r| ==> !IsControl(r[i])
    ensures forall c :: c in r <==> c in s && !IsControl(c)
    ensures |s| == 1 ==> r == if IsControl(s[0]) then [] else s
  {
    if s == [] then []
    else
      var rest := StripControl(s[..|s| - 1]);
      var c := s[|s| - 1];
      assert forall d :: d in s <==> d in s[..|s| - 1] || d == c;
      if IsControl(c) then rest else rest + [c]
  }

  /** The replacement works character by character: removing the control
      characters of a concatenation concatenates the cleaned parts, so every
      other character is kept, once, in its place. */
  lemma {:induction false} StripControlAppend(a: string, b: string)
    ensures StripControl(a + b) == StripControl(a) + StripControl(b)
  {
    if b == [] {
      assert a + b == a;
    } else {
      var init, last := b[..|b| - 1], b[|b| - 1];
      assert a + b == (a + init) + [last];
      assert (a + b)[..|a + b| - 1] == a + init;
      StripControlAppend(a, init);
    }
  }

  /** String.prototype.trim. */
  function Trim(s: string): (r: string)
    ensures r == [] || (!IsWhitespace(r[0]) && !IsWhitespace(r[|r| - 1]))
    ensures exists a, b :: 0 <= a <= b <= |s| && r == s[a..b]
                           && (forall j :: 0 <= j < a ==> IsWhitespace(s[j]))
                           && (forall j :: b <= j < |s| ==> IsWhitespace(s[j]))
  {
    var a := SkipWhitespace(s, 0);
    var b := BackOverWhitespace(s, a, |s|);
    assert a < b ==> s[a..b][0] == s[a] && s[a..b][b - a - 1] == s[b - 1];
    s[a..b]
  }

  /** The text handed to the JSON decoder. */
  function Cleaned(text: string): string {
    Trim(StripControl(ExtractJson(text)))
  }

  predicate HasAllWindowKeys(m: map<string, WindowPrediction>) {
    "1h" in m && "4h" in m && "24h" in m
  }

  /** The rescaling of one horizon. The source divides by a zero sum and
      keeps the resulting NaN values; this model rejects such a horizon. */
  function NormalizeSplit(w: WindowPrediction): (r: Option<WindowPrediction>)
    ensures r.None? <==> Abs(w.SplitSum() - 1.0) > SplitTolerance && w.SplitSum() == 0.0
    ensures Abs(w.SplitSum() - 1.0) <= SplitTolerance ==> r == Some(w)
    ensures r.Some? && Abs(w.SplitSum() - 1.0) > SplitTolerance ==>
              && r.value.SplitSum() == 1.0
              && r.value.probUp == w.probUp / w.SplitSum()
              && r.value.probDown == w.probDown / w.SplitSum()
              && r.value.probFlat == w.probFlat / w.SplitSum()
    ensures r.Some? ==> ValidSplit(r.value)
    ensures r.Some? ==> r.value.(probUp := w.probUp, probDown := w.probDown, probFlat := w.probFlat) == w
  {
    var sum := w.SplitSum();
    if Abs(sum - 1.0) <= SplitTolerance then Some(w)
    else if sum == 0.0 then None
    else
      SharesSumToOne(w.probUp, w.probDown, w.probFlat);
      Some(Rescale(w, sum))
  }

  /** Each of the three probabilities divided by `sum`. */
  function Rescale(w: WindowPrediction, sum: real): WindowPrediction
    requires sum != 0.0
  {
    w.(probUp := w.probUp / sum, probDown := w.probDown / sum, probFlat := w.probFlat / sum)
  }

  /** What parseAIResponse returns for `text`, stated as one expression. */
  function ParseSpec(text: string, decode: string -> Option<Decoded>): Option<Response> {
    match decode(Cleaned(text))
    case None => None
    case Some(d) =>
      if d.windows.None? || !HasAllWindowKeys(d.windows.value) then None
      else
        var m := d.windows.value;
        match (NormalizeSplit(m["1h"]), NormalizeSplit(m["4h"]), NormalizeSplit(m["24h"]))
        case (Some(a), Some(b), Some(c)) => Some(Response(a, b, c, d.reasoning))
        case _ => None
  }

  /** parseAIResponse: decode the cleaned text, check the structure, then
      rescale the three horizons. */
  method ParseAIResponse(text: string, decode: string -> Option<Decoded>) returns (r: Option<Response>)
    ensures r == ParseSpec(text, decode)
    ensures decode(Cleaned(text)).None? ==> r.None?
    ensures r.Some? ==> forall w :: ValidSplit(r.value.Window(w))
  {
    var parsed := decode(Cleaned(text));
    if parsed.None? {
      return None;
    }
    var d := parsed.value;
    if d.windows.None? || !HasAllWindowKeys(d.windows.value) {
      return None;
    }
    var m := NormalizeWindows(d.windows.value);
    if m.None? {
      return None;
    }
    r := Some(Response(m.value["1h"], m.value["4h"], m.value["24h"], d.reasoning));
  }

  /** The rescaling loop of parseAIResponse, run on the decoded `windows`
      object one horizon after the other; it gives up at the first horizon
      that cannot be rescaled. */
  method NormalizeWindows(m0: map<string, WindowPrediction>) returns (m: Option<map<string, WindowPrediction>>)
    requires HasAllWindowKeys(m0)
    ensures m.None? <==>
      NormalizeSplit(m0["1h"]).None? || NormalizeSplit(m0["4h"]).None? || NormalizeSplit(m0["24h"]).None?
    ensures m.Some? ==>
      && HasAllWindowKeys(m.value)
      && NormalizeSplit(m0["1h"]) == Some(m.value["1h"])
      && NormalizeSplit(m0["4h"]) == Some(m.value["4h"])
      && NormalizeSplit(m0["24h"]) == Some(m.value["24h"])
  {
    var cur := m0;
    var keys := ["1h", "4h", "24h"];
    for i := 0 to 3
      invariant cur.Keys == m0.Keys
      invariant forall j :: 0 <= j < i ==> NormalizeSplit(m0[keys[j]]) == Some(cur[keys[j]])
      invariant forall j :: i <= j < 3 ==> cur[keys[j]] == m0[keys[j]]
    {
      var w := cur[keys[i]];
      var sum := w.probUp + w.probDown + w.probFlat;
      if Abs(sum - 1.0) > SplitTolerance {
        if sum == 0.0 {
          assert NormalizeSplit(m0[keys[i]]).None?;
          return None;
        }
        cur := cur[keys[i] := Rescale(w, sum)];
      }
    }
    assert keys[0] == "1h" && keys[1] == "4h" && keys[2] == "24h";
    m := Some(cur);
  }

  /** Parsing succeeds exactly when decoding succeeds, the three horizons are
      present and none of them has a split summing to 0 that needs rescaling. */
  lemma ParseSucceedsIff(text: string, decode: string -> Option<Decoded>)
    ensures ParseSpec(text, decode).Some? <==>
              && decode(Cleaned(text)).Some?
              && decode(Cleaned(text)).value.windows.Some?
              && HasAllWindowKeys(decode(Cleaned(text)).value.windows.value)
              && forall k | k in ["1h", "4h", "24h"] :: NormalizeSplit(decode(Cleaned(text)).value.windows.value[k]).Some?
  {
    var keys := ["1h", "4h", "24h"];
    assert keys[0] == "1h" && keys[1] == "4h" && keys[2] == "24h";
  }

  /** Each returned horizon is the rescaling of the decoded one of that name. */
  lemma ParsedWindowSource(text: string, decode: string -> Option<Decoded>, w: WindowType)
    requires ParseSpec(text, decode).Some?
    ensures decode(Cleaned(text)).Some? && decode(Cleaned(text)).value.windows.Some?
    ensures WindowKey(w) in decode(Cleaned(text)).value.windows.value
    ensures NormalizeSplit(decode(Cleaned(text)).value.windows.value[WindowKey(w)]) == Some(ParseSpec(text, decode).value.Window(w))
  {
  }

  /** Every field of a returned horizon other than the split is passed
      through untouched; a split within the tolerance is kept as it is, and
      any other is rescaled to sum to exactly 1. */
  lemma ParsePassesThrough(text: string, decode: string -> Option<Decoded>, w: WindowType)
    ensures ParseSpec(text, decode).Some? ==>
              var src := decode(Cleaned(text)).value.windows.value[WindowKey(w)];
              var out := ParseSpec(text, decode).value.Window(w);
              && out.(probUp := src.probUp, probDown := src.probDown, probFlat := src.probFlat) == src
              && (Abs(src.SplitSum() - 1.0) <= SplitTolerance ==> out == src)
              && (Abs(src.SplitSum() - 1.0) > SplitTolerance ==> out.SplitSum() == 1.0)
  {
    if ParseSpec(text, decode).Some? {
      ParsedWindowSource(text, decode, w);
    }
  }

  /** No control character survives cleaning, and text that has none of them
      and no surrounding whitespace reaches the decoder unchanged. */
  lemma {:induction false} StripControlKeepsCleanText(s: string)
    requires forall i :: 0 <= i < |s| ==> !IsControl(s[i])
    ensures StripControl(s) == s
  {
    if s != [] {
      StripControlKeepsCleanText(s[..|s| - 1]);
      assert s[..|s| - 1] + [s[|s| - 1]] == s;
    }
  }

  lemma TrimKeepsTrimmedText(s: string)
    requires s == [] || (!IsWhitespace(s[0]) && !IsWhitespace(s[|s| - 1]))
    ensures Trim(s) == s
  {
    var a := SkipWhitespace(s, 0);
    assert a == 0;
    var b := BackOverWhitespace(s, a, |s|);
    assert b == |s|;
  }

  /** When the text holds a fenced json block, the first one is what gets
      decoded: `p` is the first opening fence, `c` the first closing fence
      after the block, and text[b..e] the block without the whitespace
      around it. */
  lemma ExtractFirstFencedBlock(text: string, p: nat, b: nat, e: nat, c: nat)
    requires OccursAt(text, OpeningFence, p)
    requires forall j: nat :: j < p ==> !OccursAt(text, OpeningFence, j)
    requires p + |OpeningFence| <= b <= e <= c
    requires OccursAt(text, ClosingFence, c)
    requires forall j: nat :: b <= j < c ==> !OccursAt(text, ClosingFence, j)
    requires forall j :: p + |OpeningFence| <= j < b ==> IsWhitespace(text[j])
    requires forall j :: e <= j < c ==> IsWhitespace(text[j])
    requires b < e ==> !IsWhitespace(text[b]) && !IsWhitespace(text[e - 1])
    ensures ExtractJson(text) == text[b..e]
  {
    var found := FindFrom(text, OpeningFence, 0);
    assert found == Some(p);
    assert text[c] == '`' by {
      assert text[c..c + 3] == ClosingFence;
    }
    var start := SkipWhitespace(text, p + |OpeningFence|);
    if b < e {
      assert start == b;
    } else {
      assert start == c;
    }
    var q := FindFrom(text, ClosingFence, start);
    assert q == Some(c);
    if b < e {
      assert BackOverWhitespace(text, start, c) == e;
    }
  }
}
