/**
  The few JavaScript value notions the token-issuance code relies on:
  optional values (absent versus present), truthiness of the
  strings and numbers it tests with `!x`, and `String.prototype.includes`,
  which is substring containment.
 */
module JsValues {

  /**
    A value that may be absent. The source's truthiness tests treat
    `undefined` and `null` alike; where they differ (string conversion,
    arithmetic) `None` stands for `undefined`.
   */
  datatype Option<+T> = None | Some(value: T) {

    /**
      The present value, or `default` when absent: the constructor's
      `options || {}`, where `options` is an object (always truthy) or
      nothing, so presence and truthiness coincide.
     */
    function GetOr(default: T): T {
      match this
      case Some(v) => v
      case None => default
    }
  }

  /** The outcome of an operation that either returns or throws. */
  datatype Result<+R, +E> = Success(value: R) | Failure(error: E)

  /** A string-valued JavaScript value is truthy when present and not empty. */
  predicate Truthy(v: Option<string>) {
    v.Some? && v.value != ""
  }

  /** A number-valued JavaScript value is truthy when present and not zero. */
  predicate TruthyNumber(v: Option<int>) {
    v.Some? && v.value != 0
  }

  /** `sub` occurs in `s` starting at index `i`. */
  ghost predicate OccursAt(s: string, sub: string, i: int) {
    0 <= i && i + |sub| <= |s| && s[i..i + |sub|] == sub
  }

  /** Occurrences in `s[1..]` are exactly the occurrences in `s` one index later. */
  lemma OccursAtTail(s: string, sub: string)
    requires |s| > 0
    ensures forall j :: 0 <= j ==> (OccursAt(s[1..], sub, j) <==> OccursAt(s, sub, j + 1))
    ensures forall i :: 1 <= i ==> (OccursAt(s, sub, i) <==> OccursAt(s[1..], sub, i - 1))
  {
  }

  /**
    `s.includes(sub)`: true exactly when `sub` occurs somewhere in `s`
    as a contiguous substring (the empty string occurs everywhere).
   */
  function Includes(s: string, sub: string): (b: bool)
    ensures b <==> exists i :: OccursAt(s, sub, i)
    decreases |s|
  {
    if |s| < |sub| then
      false
    else if s[..|sub|] == sub then
      assert OccursAt(s, sub, 0);
      true
    else
      assert !OccursAt(s, sub, 0);
      OccursAtTail(s, sub);
      Includes(s[1..], sub)
  }

  /** Any string of the form `before + sub + after` includes `sub`. */
  lemma {:induction false} IncludesInfix(before: string, sub: string, after: string)
    ensures Includes(before + sub + after, sub)
  {
    var s := before + sub + after;
    assert s[|before|..|before| + |sub|] == sub;
    assert OccursAt(s, sub, |before|);
  }

  /**
    The words of `s` separated by single spaces, as `s.split(' ')` gives
    them: consecutive spaces produce empty words, and the first word is
    always a prefix of `s`.
   */
  function SplitOnSpace(s: string): (words: seq<string>)
    ensures |words| >= 1
    ensures words[0] <= s
    decreases |s|
  {
    if |s| == 0 then
      [""]
    else if s[0] == ' ' then
      [""] + SplitOnSpace(s[1..])
    else
      var rest := SplitOnSpace(s[1..]);
      [[s[0]] + rest[0]] + rest[1..]
  }

  /**
    Every space-separated word of `s` is a substring of `s`: a scope that
    lists `openid` as one of its values passes a substring test for it.
   */
  lemma {:induction false} WordIsIncluded(s: string, w: string)
    requires w in SplitOnSpace(s)
    ensures Includes(s, w)
    decreases |s|
  {
    if |s| == 0 {
      assert OccursAt(s, w, 0);
    } else {
      var rest := SplitOnSpace(s[1..]);
      OccursAtTail(s, w);
      if s[0] == ' ' {
        if w == "" {
          assert OccursAt(s, w, 0);
        } else {
          assert w in rest;
          WordIsIncluded(s[1..], w);
        }
      } else if w == [s[0]] + rest[0] {
        assert s[..|w|] == w;
        assert OccursAt(s, w, 0);
      } else {
        assert w in rest[1..];
        assert w in rest;
        WordIsIncluded(s[1..], w);
      }
    }
  }

  /**
    The converse fails: a scope whose only value is `openidx` includes the
    substring `openid` without listing the value `openid`.
   */
  lemma SubstringWithoutWord()
    ensures Includes("openidx", "openid")
    ensures "openid" !in SplitOnSpace("openidx")
  {
  }
}
