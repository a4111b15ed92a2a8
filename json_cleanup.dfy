/** cleanup_json_text of app/llm_client.py: strip markdown code fences from
    the model's text, then keep the span the search of line 149 finds.

    `re.sub(r"^```[a-zA-Z]*", "", text)` removes the opening fence and the run
    of ASCII letters after it, `text.replace("```", "")` every remaining
    fence, scanning left to right.  `re.search(r"(\[.*\]|\{.*\})", text,
    re.DOTALL)` matches at the leftmost position holding `[` with a `]`
    somewhere after it, or `{` with a `}` after it, and, `.*` being greedy,
    runs to the LAST such closing bracket of the text. */
module JsonCleanup {
  import opened Wrappers
  import opened Text

  const Fence: string := "```"

  /** The text after an opening fence with its language tag, the run of
      leading ASCII letters, removed. */
  function DropLetters(s: string): (r: string)
    ensures r != [] ==> !IsAsciiLetter(r[0])
    ensures exists k :: 0 <= k <= |s| && r == s[k..] && forall j :: 0 <= j < k ==> IsAsciiLetter(s[j])
    decreases |s|
  {
    if s != [] && IsAsciiLetter(s[0]) then
      var r := DropLetters(s[1..]);
      ghost var k :| 0 <= k <= |s[1..]| && r == s[1..][k..] && forall j :: 0 <= j < k ==> IsAsciiLetter(s[1..][j]);
      assert r == s[k + 1..];
      assert forall j :: 0 <= j < k + 1 ==> IsAsciiLetter(s[j]) by {
        forall j | 0 <= j < k + 1 ensures IsAsciiLetter(s[j]) {
          if j > 0 { assert s[j] == s[1..][j - 1]; }
        }
      }
      r
    else
      assert s == s[0..];
      s
  }

  /** `s.replace("```", "")`. */
  function RemoveFences(s: string): string
    decreases |s|
  {
    if StartsWith(s, Fence) then RemoveFences(s[3..])
    else if s == [] then []
    else [s[0]] + RemoveFences(s[1..])
  }

  predicate HasFenceAt(s: string, i: int)
  {
    0 <= i && i + 3 <= |s| && s[i] == '`' && s[i + 1] == '`' && s[i + 2] == '`'
  }

  ghost predicate HasFence(s: string)
  {
    exists i :: HasFenceAt(s, i)
  }

  /** The fence-stripping step of cleanup_json_text. */
  function StripFences(text: string): string
  {
    if StartsWith(text, Fence) then RemoveFences(DropLetters(text[3..])) else text
  }

  function CloserOf(c: char): char
  {
    if c == '[' then ']' else '}'
  }

  /** Position `p` opens the span the search would match there. */
  predicate OpensSpan(s: string, p: int)
  {
    0 <= p < |s| && (s[p] == '[' || s[p] == '{') && CloserOf(s[p]) in s[p + 1..]
  }

  /** The leftmost position at or after `from` that opens a span. */
  function FirstSpanStart(s: string, from: nat): (r: Option<nat>)
    ensures r.None? ==> forall p :: from <= p < |s| ==> !OpensSpan(s, p)
    ensures r.Some? ==> from <= r.value < |s| && OpensSpan(s, r.value)
                        && forall p :: from <= p < r.value ==> !OpensSpan(s, p)
    decreases |s| - from
  {
    if from >= |s| then None
    else if OpensSpan(s, from) then Some(from)
    else FirstSpanStart(s, from + 1)
  }

  /** The position of the last occurrence of `c` in `s`. */
  function LastIndexOf(s: string, c: char): (i: nat)
    requires c in s
    ensures i < |s| && s[i] == c && forall j :: i < j < |s| ==> s[j] != c
    decreases |s|
  {
    if s[|s| - 1] == c then |s| - 1 else LastIndexOf(s[..|s| - 1], c)
  }

  /** The search matches from `p` to `q`: `p` is the leftmost opening
      position and `q` the last closer of its kind. */
  predicate SpanAt(s: string, p: int, q: int)
  {
    OpensSpan(s, p) && (forall p' :: 0 <= p' < p ==> !OpensSpan(s, p'))
    && p < q < |s| && s[q] == CloserOf(s[p]) && (forall j :: q < j < |s| ==> s[j] != s[q])
  }

  /** The span step of cleanup_json_text: the matched span, or the whole
      text when no position opens a span. */
  function ExtractSpan(s: string): (r: string)
    ensures (forall p :: 0 <= p < |s| ==> !OpensSpan(s, p)) ==> r == s
    ensures (exists p :: OpensSpan(s, p)) ==> exists p, q :: SpanAt(s, p, q) && r == s[p..q + 1]
  {
    match FirstSpanStart(s, 0)
    case None => s
    case Some(p) =>
      var q := LastIndexOf(s, CloserOf(s[p]));
      assert CloserOf(s[p]) in s[p + 1..];
      var k :| p + 1 <= k < |s| && s[k] == CloserOf(s[p]);
      assert p < k <= q;
      assert SpanAt(s, p, q);
      s[p..q + 1]
  }

  /** cleanup_json_text. */
  function CleanupJsonText(text: string): string
  {
    ExtractSpan(StripFences(text))
  }

  // ---------------------------------------------------------------------
  // Properties

  /** No fence survives `replace`: removing a fence never makes a new one
      out of the characters around it. */
  lemma {:induction false} RemoveFencesLeavesNone(s: string)
    ensures !HasFence(RemoveFences(s))
    decreases |s|
  {
    if StartsWith(s, Fence) {
      RemoveFencesLeavesNone(s[3..]);
    } else if s != [] {
      var rest := RemoveFences(s[1..]);
      RemoveFencesLeavesNone(s[1..]);
      var r := [s[0]] + rest;
      if HasFence(r) {
        var i :| HasFenceAt(r, i);
        if i > 0 {
          assert HasFenceAt(rest, i - 1);
        } else {
          // r would start with three back-ticks although s does not.
          assert false;
        }
      }
    }
  }

  lemma StartsWithFence(s: string)
    ensures StartsWith(s, Fence) <==> HasFenceAt(s, 0)
  {
    if |s| >= 3 {
      assert s[..3][0] == s[0] && s[..3][1] == s[1] && s[..3][2] == s[2];
    }
  }

  /** Stripping leaves no opening fence behind. */
  lemma StripFencesNoOpening(text: string)
    ensures !StartsWith(StripFences(text), Fence)
  {
    if StartsWith(text, Fence) {
      var s := StripFences(text);
      RemoveFencesLeavesNone(DropLetters(text[3..]));
      assert !HasFenceAt(s, 0);
      StartsWithFence(s);
    }
  }

  /** After stripping, a text that had an opening fence holds no fence. */
  lemma StripFencesLeavesNone(text: string)
    requires StartsWith(text, Fence)
    ensures !HasFence(StripFences(text))
  {
    RemoveFencesLeavesNone(DropLetters(text[3..]));
  }

  lemma NoFenceAtStart(s: string)
    requires s != [] && s[0] != '`'
    ensures StripFences(s) == s
  {
    StartsWithFence(s);
  }

  /** The leftmost opening position is the one the search reports. */
  lemma FirstSpanStartIs(s: string, p: nat)
    requires OpensSpan(s, p) && forall p' :: 0 <= p' < p ==> !OpensSpan(s, p')
    ensures FirstSpanStart(s, 0) == Some(p)
  {
  }

  /** The last occurrence of a character is the one the search reports. */
  lemma LastIndexOfIs(s: string, c: char, q: nat)
    requires q < |s| && s[q] == c && forall j :: q < j < |s| ==> s[j] != c
    ensures LastIndexOf(s, c) == q
  {
    var i := LastIndexOf(s, c);
    assert !(i < q) && !(q < i);
  }

  /** Text without brackets, then a bracket-delimited part, then text
      without its closer: cleanup's span is exactly that part. */
  lemma SpanAfterProse(a: string, m: string, z: string)
    requires forall i :: 0 <= i < |a| ==> a[i] != '[' && a[i] != '{'
    requires |m| >= 2 && (m[0] == '[' || m[0] == '{') && m[|m| - 1] == CloserOf(m[0])
    requires CloserOf(m[0]) !in z
    ensures ExtractSpan(a + m + z) == m
  {
    var s := a + m + z;
    var p := |a|;
    var q := |a| + |m| - 1;
    assert s[p] == m[0] && s[q] == m[|m| - 1];
    assert s[p + 1..][q - p - 1] == s[q];
    assert OpensSpan(s, p);
    assert forall p' :: 0 <= p' < p ==> !OpensSpan(s, p') by {
      forall p' | 0 <= p' < p ensures !OpensSpan(s, p') { assert s[p'] == a[p']; }
    }
    FirstSpanStartIs(s, p);
    assert forall j :: q < j < |s| ==> s[j] != CloserOf(s[p]) by {
      forall j | q < j < |s| ensures s[j] != CloserOf(s[p]) { assert s[j] == z[j - q - 1]; }
    }
    LastIndexOfIs(s, CloserOf(s[p]), q);
    assert s[p..q + 1] == m;
  }

  /** A bracket-delimited text is its own span. */
  lemma SpanOfBracketed(s: string)
    requires |s| >= 2 && (s[0] == '[' || s[0] == '{') && s[|s| - 1] == CloserOf(s[0])
    ensures ExtractSpan(s) == s
  {
    SpanAfterProse([], s, []);
    assert [] + s + [] == s;
  }

  /** A text that starts with a bracket and ends with its closer passes
      through unchanged. */
  lemma CleanupKeepsBracketed(s: string)
    requires |s| >= 2 && (s[0] == '[' || s[0] == '{') && s[|s| - 1] == CloserOf(s[0])
    ensures CleanupJsonText(s) == s
  {
    assert !StartsWith(s, Fence);
    SpanOfBracketed(s);
  }

  /** Cleaning a cleaned text changes nothing: a span re-matches as a whole,
      and a text without a span has no opening fence left to strip. */
  lemma CleanupIdempotent(text: string)
    ensures CleanupJsonText(CleanupJsonText(text)) == CleanupJsonText(text)
  {
    var s := StripFences(text);
    assert CleanupJsonText(text) == ExtractSpan(s);
    if exists p :: OpensSpan(s, p) {
      SpanIsFixed(s);
    } else {
      StripFencesNoOpening(text);
      UnspannedIsFixed(s);
    }
  }

  /** A matched span is cleaned to itself. */
  lemma SpanIsFixed(s: string)
    requires exists p :: OpensSpan(s, p)
    ensures CleanupJsonText(ExtractSpan(s)) == ExtractSpan(s)
  {
    var c := ExtractSpan(s);
    assert exists p, q :: SpanAt(s, p, q) && c == s[p..q + 1];
    var p, q :| SpanAt(s, p, q) && c == s[p..q + 1];
    SpanIsBracketed(s, p, q, c);
    CleanupKeepsBracketed(c);
  }

  /** A text with neither an opening fence nor a span is cleaned to itself. */
  lemma UnspannedIsFixed(s: string)
    requires !StartsWith(s, Fence) && forall p :: 0 <= p < |s| ==> !OpensSpan(s, p)
    ensures ExtractSpan(s) == s && CleanupJsonText(s) == s
  {
  }

  /** A matched span opens and closes with a bracket pair. */
  lemma SpanIsBracketed(s: string, p: int, q: int, c: string)
    requires SpanAt(s, p, q) && c == s[p..q + 1]
    ensures |c| >= 2 && (c[0] == '[' || c[0] == '{') && c[|c| - 1] == CloserOf(c[0])
  {
  }

  /** Removing fences distributes over a split whose left part does not end
      in a back-tick. */
  lemma {:induction false} RemoveFencesAppend(x: string, y: string)
    requires x == [] || x[|x| - 1] != '`'
    ensures RemoveFences(x + y) == RemoveFences(x) + RemoveFences(y)
    decreases |x|
  {
    if x == [] {
      assert x + y == y;
    } else if StartsWith(x + y, Fence) {
      assert (x + y)[|x| - 1] == x[|x| - 1];
      assert |x| >= 3;
      assert (x + y)[..3] == x[..3];
      assert (x + y)[3..] == x[3..] + y;
      RemoveFencesAppend(x[3..], y);
    } else {
      assert !StartsWith(x, Fence);
      assert (x + y)[0] == x[0];
      assert (x + y)[1..] == x[1..] + y;
      RemoveFencesAppend(x[1..], y);
      assert RemoveFences(x + y) == [x[0]] + (RemoveFences(x[1..]) + RemoveFences(y));
    }
  }

  lemma {:induction false} RemoveFencesNoop(s: string)
    requires !HasFence(s)
    ensures RemoveFences(s) == s
    decreases |s|
  {
    if s != [] {
      StartsWithFence(s);
      assert !HasFenceAt(s, 0);
      forall i | 0 <= i && i + 3 <= |s[1..]| ensures !HasFenceAt(s[1..], i) {
        assert s[1..][i] == s[i + 1] && s[1..][i + 1] == s[i + 2] && s[1..][i + 2] == s[i + 3];
        assert !HasFenceAt(s, i + 1);
      }
      RemoveFencesNoop(s[1..]);
    }
  }

  lemma {:induction false} DropTag(tag: string, rest: string)
    requires forall i :: 0 <= i < |tag| ==> IsAsciiLetter(tag[i])
    requires rest != [] && !IsAsciiLetter(rest[0])
    ensures DropLetters(tag + rest) == rest
    decreases |tag|
  {
    if tag != [] {
      assert (tag + rest)[1..] == tag[1..] + rest;
      DropTag(tag[1..], rest);
    } else {
      assert tag + rest == rest;
    }
  }

  /** Framing a text between two newlines makes no fence. */
  lemma NewlineFramedHasNoFence(s: string)
    requires !HasFence(s)
    ensures !HasFence("\n" + s + "\n")
  {
    var body := "\n" + s + "\n";
    assert body[0] == '\n' && body[|body| - 1] == '\n';
    assert forall j :: 1 <= j <= |s| ==> body[j] == s[j - 1];
    forall i | 0 <= i ensures !HasFenceAt(body, i) {
      if 1 <= i && i + 3 < |body| {
        assert body[i] == s[i - 1] && body[i + 1] == s[i] && body[i + 2] == s[i + 1];
        assert !HasFenceAt(s, i - 1);
      }
    }
  }

  /** The closing fence after the framed text is all that `replace` removes. */
  lemma FenceAfterBody(body: string, s: string)
    requires body == "\n" + s + "\n" && !HasFence(s)
    ensures RemoveFences(body + Fence) == body
  {
    assert RemoveFences(Fence) == [] by {
      assert StartsWith(Fence, Fence) && Fence[3..] == [];
    }
    NewlineFramedHasNoFence(s);
    RemoveFencesNoop(body);
    assert body[|body| - 1] == '\n';
    RemoveFencesAppend(body, Fence);
  }

  /** Stripping a fenced block with a language tag leaves the lines between
      the fences. */
  lemma StripFencedBlock(tag: string, s: string)
    requires forall i :: 0 <= i < |tag| ==> IsAsciiLetter(tag[i])
    requires !HasFence(s)
    ensures StripFences(Fence + tag + "\n" + s + "\n" + Fence) == "\n" + s + "\n"
  {
    var text := Fence + tag + "\n" + s + "\n" + Fence;
    var body := "\n" + s + "\n";
    assert text == Fence + (tag + (body + Fence));
    FenceAfterBody(body, s);
    assert DropLetters(text[3..]) == body + Fence by {
      assert text[3..] == tag + (body + Fence);
      DropTag(tag, body + Fence);
    }
    assert StartsWith(text, Fence) by {
      assert text[..3] == Fence;
    }
  }

  /** A bracketed JSON text wrapped in a fenced block with a language tag
      comes out of cleanup exactly as it went in. */
  lemma CleanupFencedBlock(tag: string, s: string)
    requires forall i :: 0 <= i < |tag| ==> IsAsciiLetter(tag[i])
    requires |s| >= 2 && (s[0] == '[' || s[0] == '{') && s[|s| - 1] == CloserOf(s[0])
    requires !HasFence(s)
    ensures CleanupJsonText(Fence + tag + "\n" + s + "\n" + Fence) == s
  {
    StripFencedBlock(tag, s);
    SpanAfterProse("\n", s, "\n");
  }

  // ---------------------------------------------------------------------
  // Examples

  /** A fenced array loses its fence. */
  lemma FencedArrayExample()
    ensures CleanupJsonText("```json\n[1,2]\n```") == "[1,2]"
  {
    assert "```json\n[1,2]\n```" == Fence + "json" + "\n" + "[1,2]" + "\n" + Fence;
    assert !HasFence("[1,2]") by {
      assert forall i :: 0 <= i < |"[1,2]"| ==> "[1,2]"[i] != '`';
    }
    CleanupFencedBlock("json", "[1,2]");
  }

  /** Prose around an array is cut away. */
  lemma ProseExample()
    ensures CleanupJsonText("here is the result: " + "[1,2]" + " thanks") == "[1,2]"
  {
    var text := "here is the result: " + "[1,2]" + " thanks";
    NoFenceAtStart(text);
    SpanAfterProse("here is the result: ", "[1,2]", " thanks");
  }

  /** Proof step: naming the result of each of the two steps. */
  lemma CleanupInTwoSteps(text: string, stripped: string, span: string)
    requires StripFences(text) == stripped && ExtractSpan(stripped) == span
    ensures CleanupJsonText(text) == span
  {
  }

  /** A fence after prose is not stripped: the fence step leaves the text
      alone and only the span step cuts out "[]". */
  lemma ProseThenFenceExample()
    ensures StripFences("Sure! ```json\n" + "[]" + "\n```") == "Sure! ```json\n" + "[]" + "\n```"
    ensures ExtractSpan("Sure! ```json\n" + "[]" + "\n```") == "[]"
  {
    var text := "Sure! ```json\n" + "[]" + "\n```";
    NoFenceAtStart(text);
    SpanAfterProse("Sure! ```json\n", "[]", "\n```");
  }

  /** The search is greedy: two arrays in one text come back together with
      the prose between them. */
  lemma GreedySpanExample()
    ensures CleanupJsonText("[1] and [2]") == "[1] and [2]"
  {
    CleanupKeepsBracketed("[1] and [2]");
  }
}
