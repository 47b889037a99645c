/**
 * Order-status intent detection and order-number extraction of the POST /webhook
 * handler. The handler tests three regular expressions on the message text,
 *   /order\s*#?\d+/i,  /where.*order/i,  /status.*order/i,
 * and, when one of them matches, takes the capture of /#?(\d{3,20})/.
 *
 * Each pattern is specified as what it means (a ghost predicate stating that a
 * match exists) and computed by a scanner that tries each start position in
 * turn, as a backtracking matcher does; the scanners' contracts tie the two.
 */
module OrderIntent {
  import opened Wrappers
  import opened JsValues

  // ---------------------------------------------------------------------------
  // Character classes (ECMAScript, without the `u` flag)
  // ---------------------------------------------------------------------------

  /** `\d`: the ASCII digits only, whatever the `i` flag. */
  predicate IsDigit(c: char) {
    '0' <= c <= '9'
  }

  /** LineTerminator: the characters `.` does not match. */
  predicate IsLineTerminator(c: char) {
    c == '\n' || c == '\r' || c == '\U{2028}' || c == '\U{2029}'
  }

  /** `\s`: WhiteSpace (tab, VT, FF, ZWNBSP and the space separators) or a LineTerminator. */
  predicate IsSpace(c: char) {
    || c == '\t' || c == '\U{000B}' || c == '\U{000C}' || c == '\U{FEFF}'
    || c == ' ' || c == '\U{00A0}' || c == '\U{1680}' || ('\U{2000}' <= c <= '\U{200A}')
    || c == '\U{202F}' || c == '\U{205F}' || c == '\U{3000}'
    || IsLineTerminator(c)
  }

  /**
   * ASCII lower-casing. Under the `i` flag without `u`, two characters match when
   * their upper-case forms agree, except that a non-ASCII character is never
   * folded onto an ASCII one; for the ASCII letters of the patterns this is
   * exactly ASCII case folding.
   */
  function Lower(c: char): char {
    if 'A' <= c <= 'Z' then (c as int + 32) as char else c
  }

  /** The literal `w` (written in lower case) occurs in `s` at `i`, ignoring ASCII case. */
  predicate WordAt(s: string, i: nat, w: string) {
    i + |w| <= |s| && forall k :: 0 <= k < |w| ==> Lower(s[i + k]) == w[k]
  }

  ghost predicate AllSpace(s: string, i: nat, j: nat)
    requires i <= j <= |s|
  {
    forall k :: i <= k < j ==> IsSpace(s[k])
  }

  ghost predicate NoLineTerminator(s: string, i: nat, j: nat)
    requires i <= j <= |s|
  {
    forall k :: i <= k < j ==> !IsLineTerminator(s[k])
  }

  // ---------------------------------------------------------------------------
  // /order\s*#?\d+/i
  // ---------------------------------------------------------------------------

  /** `#?\d` matches at `k`. */
  predicate HashDigitAt(s: string, k: nat) {
    || (k < |s| && IsDigit(s[k]))
    || (k + 1 < |s| && s[k] == '#' && IsDigit(s[k + 1]))
  }

  /** A match of /order\s*#?\d+/i starts at `i`: `order`, white space up to some `k`, then `#?\d` at `k`. */
  ghost predicate OrderNumberAt(s: string, i: nat) {
    && WordAt(s, i, "order")
    && exists k :: i + 5 <= k <= |s| && AllSpace(s, i + 5, k) && HashDigitAt(s, k)
  }

  ghost predicate OrderNumberIn(s: string) {
    exists i :: OrderNumberAt(s, i)
  }

  /** The end of the longest run of white space starting at `k` (what a greedy `\s*` consumes). */
  function SkipSpace(s: string, k: nat): (j: nat)
    requires k <= |s|
    ensures k <= j <= |s| && AllSpace(s, k, j)
    ensures j == |s| || !IsSpace(s[j])
    decreases |s| - k
  {
    if k < |s| && IsSpace(s[k]) then SkipSpace(s, k + 1) else k
  }

  /** After `order` at `i`, the pattern matches iff `#?\d` follows the greedy white-space run. */
  lemma OrderNumberAtGreedy(s: string, i: nat)
    requires WordAt(s, i, "order")
    ensures OrderNumberAt(s, i) <==> HashDigitAt(s, SkipSpace(s, i + 5))
  {
    var j := SkipSpace(s, i + 5);
    if OrderNumberAt(s, i) {
      var k: nat :| i + 5 <= k <= |s| && AllSpace(s, i + 5, k) && HashDigitAt(s, k);
      assert !IsSpace(s[k]);
    } else {
      assert !(AllSpace(s, i + 5, j) && HashDigitAt(s, j));
    }
  }

  /** Tries /order\s*#?\d+/i at `i`, `i + 1`, ... */
  function OrderNumberFrom(s: string, i: nat): (b: bool)
    ensures b <==> exists j :: i <= j && OrderNumberAt(s, j)
    decreases |s| - i
  {
    if i + 5 > |s| then false
    else if WordAt(s, i, "order") && HashDigitAt(s, SkipSpace(s, i + 5)) then
      OrderNumberAtGreedy(s, i);
      true
    else
      (if WordAt(s, i, "order") then OrderNumberAtGreedy(s, i); OrderNumberFrom(s, i + 1)
       else OrderNumberFrom(s, i + 1))
  }

  // ---------------------------------------------------------------------------
  // /where.*order/i and /status.*order/i
  // ---------------------------------------------------------------------------

  /** A match of /<w>.*order/i starts at `i`: `w`, then `order` later on the same line. */
  ghost predicate WordThenOrderAt(s: string, w: string, i: nat) {
    && WordAt(s, i, w)
    && exists j :: i + |w| <= j <= |s| && NoLineTerminator(s, i + |w|, j) && WordAt(s, j, "order")
  }

  ghost predicate WordThenOrderIn(s: string, w: string) {
    exists i :: WordThenOrderAt(s, w, i)
  }

  /** Looks for `order` at `k` or later without crossing a line terminator (what `.*order` does). */
  function OrderOnLineFrom(s: string, k: nat): (b: bool)
    requires k <= |s|
    ensures b <==> exists j :: k <= j <= |s| && NoLineTerminator(s, k, j) && WordAt(s, j, "order")
    decreases |s| - k
  {
    if k + 5 > |s| then false
    else if WordAt(s, k, "order") then true
    else if IsLineTerminator(s[k]) then false
    else
      var b := OrderOnLineFrom(s, k + 1);
      assert b ==> exists j :: k <= j <= |s| && NoLineTerminator(s, k, j) && WordAt(s, j, "order") by {
        if b {
          var j: nat :| k + 1 <= j <= |s| && NoLineTerminator(s, k + 1, j) && WordAt(s, j, "order");
          assert NoLineTerminator(s, k, j);
        }
      }
      b
  }

  /** Tries /<w>.*order/i at `i`, `i + 1`, ... */
  function WordThenOrderFrom(s: string, w: string, i: nat): (b: bool)
    ensures b <==> exists j :: i <= j && WordThenOrderAt(s, w, j)
    decreases |s| - i
  {
    if i + |w| > |s| then false
    else
      var here := WordAt(s, i, w) && OrderOnLineFrom(s, i + |w|);
      assert here <==> WordThenOrderAt(s, w, i);
      here || WordThenOrderFrom(s, w, i + 1)
  }

  // ---------------------------------------------------------------------------
  // The intent test
  // ---------------------------------------------------------------------------

  /**
   * The handler's intent test on the message text `body`. `RegExp.prototype.test`
   * converts its argument with `String`, so a missing body is tested as "undefined".
   */
  function HasOrderIntent(body: JStr): (b: bool)
    ensures b <==> var s := Str(body);
      OrderNumberIn(s) || WordThenOrderIn(s, "where") || WordThenOrderIn(s, "status")
  {
    var s := Str(body);
    OrderNumberFrom(s, 0) || WordThenOrderFrom(s, "where", 0) || WordThenOrderFrom(s, "status", 0)
  }

  /** Every one of the three patterns needs the word `order` somewhere in the text. */
  lemma PatternsNeedOrderWord(s: string) returns (j: nat)
    requires OrderNumberIn(s) || WordThenOrderIn(s, "where") || WordThenOrderIn(s, "status")
    ensures WordAt(s, j, "order")
    ensures j < |s| && Lower(s[j]) == 'o'
  {
    if OrderNumberIn(s) {
      var i: nat :| OrderNumberAt(s, i);
      j := i;
    } else if WordThenOrderIn(s, "where") {
      var i: nat :| WordThenOrderAt(s, "where", i);
      j :| i + 5 <= j <= |s| && NoLineTerminator(s, i + 5, j) && WordAt(s, j, "order");
    } else {
      var i: nat :| WordThenOrderAt(s, "status", i);
      j :| i + 6 <= j <= |s| && NoLineTerminator(s, i + 6, j) && WordAt(s, j, "order");
    }
    assert Lower(s[j + 0]) == "order"[0];
  }

  /** A text none of whose characters is `o` or `O` shows no intent. */
  lemma NoOWordNoIntent(body: JStr)
    requires forall k :: 0 <= k < |Str(body)| ==> Lower(Str(body)[k]) != 'o'
    ensures !HasOrderIntent(body)
  {
    if HasOrderIntent(body) {
      var j := PatternsNeedOrderWord(Str(body));
    }
  }

  /** A message without text (an image, a reaction, `text.body` null) never triggers a lookup. */
  lemma NoIntentWithoutText(body: JStr)
    requires !body.Val?
    ensures !HasOrderIntent(body)
  {
    var s := Str(body);
    assert s == "undefined" || s == "null";
    NoOWordNoIntent(body);
  }

  // ---------------------------------------------------------------------------
  // /#?(\d{3,20})/ and the capture matched[1]
  // ---------------------------------------------------------------------------

  predicate AllDigits(s: string) {
    forall k :: 0 <= k < |s| ==> IsDigit(s[k])
  }

  predicate ThreeDigitsAt(s: string, q: nat) {
    q + 3 <= |s| && IsDigit(s[q]) && IsDigit(s[q + 1]) && IsDigit(s[q + 2])
  }

  /** The length of the run of digits starting at `p`. */
  function DigitRun(s: string, p: nat): (n: nat)
    requires p <= |s|
    ensures p + n <= |s|
    ensures forall k :: p <= k < p + n ==> IsDigit(s[k])
    ensures p + n == |s| || !IsDigit(s[p + n])
    decreases |s| - p
  {
    if p < |s| && IsDigit(s[p]) then 1 + DigitRun(s, p + 1) else 0
  }

  function Min(a: nat, b: nat): nat {
    if a < b then a else b
  }

  /**
   * `id`, found by a search that began at `lo`, sits at `c` in `s`, is 3 to 20
   * digits long, is the whole digit run at `c` unless it stopped at 20 digits, and
   * no three consecutive digits occur in `s` between `lo` and `c`.
   */
  ghost predicate CaptureFrom(s: string, lo: nat, c: nat, id: string) {
    && lo <= c && c + |id| <= |s| && s[c .. c + |id|] == id
    && 3 <= |id| <= 20 && AllDigits(id)
    && (|id| == 20 || c + |id| == |s| || !IsDigit(s[c + |id|]))
    && forall q :: lo <= q < c ==> !ThreeDigitsAt(s, q)
  }

  /** The capture that `\d{3,20}` (greedy) takes at `c`, when at least three digits start there. */
  function DigitsAt(s: string, c: nat): (r: Option<string>)
    requires c <= |s|
    ensures r.None? <==> !ThreeDigitsAt(s, c)
    ensures r.Some? ==> CaptureFrom(s, c, c, r.value)
  {
    var n := DigitRun(s, c);
    if n < 3 then
      None
    else
      var id := s[c .. c + Min(n, 20)];
      assert AllDigits(id) by {
        forall k | 0 <= k < |id| ensures IsDigit(id[k]) { assert id[k] == s[c + k]; }
      }
      Some(id)
  }

  /** One attempt of /#?(\d{3,20})/ at `p`: with the `#`, and after backtracking, without it. */
  function CaptureAt(s: string, p: nat): (r: Option<string>)
    requires p <= |s|
    ensures r.None? <==> !ThreeDigitsAt(s, p) && !(p < |s| && s[p] == '#' && ThreeDigitsAt(s, p + 1))
    ensures r.Some? ==>
      || CaptureFrom(s, p, p, r.value)
      || (p < |s| && s[p] == '#' && CaptureFrom(s, p, p + 1, r.value))
    ensures r.Some? ==> exists c :: CaptureFrom(s, p, c, r.value)
  {
    if p < |s| && s[p] == '#' && DigitsAt(s, p + 1).Some? then
      var id := DigitsAt(s, p + 1).value;
      assert CaptureFrom(s, p, p + 1, id);
      Some(id)
    else
      var r := DigitsAt(s, p);
      assert r.Some? ==> CaptureFrom(s, p, p, r.value);
      r
  }

  lemma CaptureHasThreeDigits(s: string, lo: nat, c: nat, id: string)
    requires CaptureFrom(s, lo, c, id)
    ensures ThreeDigitsAt(s, c)
  {
    assert s[c] == id[0] && s[c + 1] == id[1] && s[c + 2] == id[2];
  }

  /** The leftmost-match search of `String.prototype.match`, from position `p` on. */
  function SearchFrom(s: string, p: nat): (r: Option<string>)
    requires p <= |s|
    ensures r.None? <==> forall q :: p <= q <= |s| ==> !ThreeDigitsAt(s, q)
    ensures r.Some? ==> exists c :: CaptureFrom(s, p, c, r.value)
    decreases |s| - p
  {
    match CaptureAt(s, p)
    case Some(id) =>
      assert exists q :: p <= q <= |s| && ThreeDigitsAt(s, q) by {
        var c: nat :| CaptureFrom(s, p, c, id);
        CaptureHasThreeDigits(s, p, c, id);
      }
      Some(id)
    case None =>
      if p == |s| then None
      else
        var r := SearchFrom(s, p + 1);
        assert r.Some? ==> exists c :: CaptureFrom(s, p, c, r.value) by {
          if r.Some? {
            var c: nat :| CaptureFrom(s, p + 1, c, r.value);
            assert CaptureFrom(s, p, c, r.value);
          }
        }
        r
  }

  /** The order number the handler extracts: the first digit run of length at least 3, cut to 20 digits. */
  ghost predicate IsFirstOrderId(s: string, c: nat, id: string) {
    CaptureFrom(s, 0, c, id) && (c == 0 || !IsDigit(s[c - 1]))
  }

  /** `s.match(/#?(\d{3,20})/)` and then `matched[1]`; None when the match is null. */
  function ExtractOrderId(s: string): (r: Option<string>)
    ensures r.None? <==> forall q :: 0 <= q < |s| ==> !ThreeDigitsAt(s, q)
    ensures r.Some? ==> exists c :: IsFirstOrderId(s, c, r.value)
  {
    var r := SearchFrom(s, 0);
    assert r.Some? ==> exists c :: IsFirstOrderId(s, c, r.value) by {
      if r.Some? {
        var c: nat :| CaptureFrom(s, 0, c, r.value);
        CaptureHasThreeDigits(s, 0, c, r.value);
        assert c > 0 ==> !ThreeDigitsAt(s, c - 1);
        assert IsFirstOrderId(s, c, r.value);
      }
    }
    r
  }

  /** A capture is the digit run at its position, cut to 20 digits. */
  lemma CaptureLength(s: string, lo: nat, c: nat, id: string)
    requires CaptureFrom(s, lo, c, id)
    ensures |id| == Min(DigitRun(s, c), 20)
  {
    assert forall k :: c <= k < c + |id| ==> IsDigit(s[k]) by {
      forall k | c <= k < c + |id| ensures IsDigit(s[k]) { assert s[k] == id[k - c]; }
    }
  }

  /** The first-run description determines the order number completely. */
  lemma {:induction false} FirstOrderIdUnique(s: string, c1: nat, id1: string, c2: nat, id2: string)
    requires IsFirstOrderId(s, c1, id1) && IsFirstOrderId(s, c2, id2)
    ensures c1 == c2 && id1 == id2
  {
    CaptureHasThreeDigits(s, 0, c1, id1);
    CaptureHasThreeDigits(s, 0, c2, id2);
    assert c1 < c2 ==> !ThreeDigitsAt(s, c1);
    assert c2 < c1 ==> !ThreeDigitsAt(s, c2);
    assert c1 == c2;
    CaptureLength(s, 0, c1, id1);
    CaptureLength(s, 0, c2, id2);
    assert |id1| == |id2|;
  }

  // ---------------------------------------------------------------------------
  // The lookup decision
  // ---------------------------------------------------------------------------

  /**
   * The order number the handler looks up for message text `body`, if any: the
   * capture of /#?(\d{3,20})/, taken only when the intent test passes.
   */
  function OrderQuery(body: JStr): (r: Option<string>)
    ensures !HasOrderIntent(body) ==> r.None?
    ensures HasOrderIntent(body) && r.None? ==> forall q :: 0 <= q < |body.v| ==> !ThreeDigitsAt(body.v, q)
    ensures r.Some? ==> body.Val? && exists c :: IsFirstOrderId(body.v, c, r.value)
  {
    if HasOrderIntent(body) then
      assert body.Val? by {
        if !body.Val? { NoIntentWithoutText(body); }
      }
      ExtractOrderId(body.v)
    else None
  }

  // ---------------------------------------------------------------------------
  // A worked case
  // ---------------------------------------------------------------------------

  // Written in pieces: the solver reasons about short string literals more readily than long ones.
  const WhereIsMyOrder := "Where is my order #" + "12345" + "?"

  lemma WhereIsMyOrderIntent()
    ensures HasOrderIntent(Val(WhereIsMyOrder))
  {
    var s := WhereIsMyOrder;
    assert WordAt(s, 0, "where");
    assert WordAt(s, 12, "order");
    assert NoLineTerminator(s, 5, 12);
    assert WordThenOrderAt(s, "where", 0);
  }

  lemma WhereIsMyOrderId()
    ensures ExtractOrderId(WhereIsMyOrder) == Some("12345")
  {
    var s := WhereIsMyOrder;
    var lead := "Where is my order #";
    assert forall k :: 0 <= k < |lead| ==> !IsDigit(lead[k]);
    assert forall k :: 0 <= k < |lead| ==> s[k] == lead[k];
    assert s[19 .. 24] == "12345";
    assert IsFirstOrderId(s, 19, "12345");
    CaptureHasThreeDigits(s, 0, 19, "12345");
    var r := ExtractOrderId(s);
    var c: nat :| IsFirstOrderId(s, c, r.value);
    FirstOrderIdUnique(s, c, r.value, 19, "12345");
  }

  /** The text "Where is my order #12345?" shows intent and yields the order number "12345". */
  lemma WhereIsMyOrderQuery()
    ensures OrderQuery(Val(WhereIsMyOrder)) == Some("12345")
  {
    WhereIsMyOrderIntent();
    WhereIsMyOrderId();
  }
}
