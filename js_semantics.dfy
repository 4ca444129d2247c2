/**
 * The few pieces of JavaScript value semantics the session controller relies on:
 * loosely typed message fields, truthiness, the `??` operator and `String.prototype.trim`.
 */
module JsSemantics {
  import opened Wrappers

  /** A decoded JSON field: absent or `null`, a number, or any other kind of value. */
  datatype JsValue = Nullish | Num(n: real) | OtherValue

  /** JavaScript truthiness of an optional string: `null`, `undefined` and `""` are falsy. */
  predicate Truthy(s: Option<string>)
  {
    s.Some? && s.value != ""
  }

  /** `v ?? d`: the default replaces only `null` and `undefined`. */
  function Coalesce(v: JsValue, d: real): (r: JsValue)
    ensures !r.Nullish?
    ensures v.Nullish? ==> r == Num(d)
    ensures !v.Nullish? ==> r == v
  {
    if v.Nullish? then Num(d) else v
  }

  /** The characters `trim()` removes: ECMAScript WhiteSpace and LineTerminator code points. */
  predicate IsJsWhitespace(c: char)
  {
    var k := c as int;
    k == 0x09 || k == 0x0A || k == 0x0B || k == 0x0C || k == 0x0D || k == 0x20 ||
    k == 0xA0 || k == 0x1680 || (0x2000 <= k <= 0x200A) || k == 0x2028 || k == 0x2029 ||
    k == 0x202F || k == 0x205F || k == 0x3000 || k == 0xFEFF
  }

  predicate AllWhitespace(s: string)
  {
    forall i | 0 <= i < |s| :: IsJsWhitespace(s[i])
  }

  /** Drops the leading whitespace: the result is the suffix of `s` after a run of whitespace. */
  function TrimStart(s: string): (r: string)
    ensures |r| <= |s| && r == s[|s| - |r|..]
    ensures AllWhitespace(s[..|s| - |r|])
    ensures r == [] || !IsJsWhitespace(r[0])
  {
    if s != [] && IsJsWhitespace(s[0]) then
      var r := TrimStart(s[1..]);
      assert s[..|s| - |r|] == [s[0]] + s[1..][..|s| - 1 - |r|];
      r
    else s
  }

  /** Drops the trailing whitespace: the result is the prefix of `s` before a run of whitespace. */
  function TrimEnd(s: string): (r: string)
    ensures |r| <= |s| && r == s[..|r|]
    ensures AllWhitespace(s[|r|..])
    ensures r == [] || !IsJsWhitespace(r[|r| - 1])
  {
    if s != [] && IsJsWhitespace(s[|s| - 1]) then
      var r := TrimEnd(s[..|s| - 1]);
      assert s[|r|..] == s[..|s| - 1][|r|..] + [s[|s| - 1]];
      r
    else s
  }

  /** The number of whitespace characters `trim()` removes from the front of `s`. */
  function LeadingWhitespace(s: string): (k: nat)
    ensures k <= |s| && AllWhitespace(s[..k])
    ensures k < |s| ==> !IsJsWhitespace(s[k])
  {
    |s| - |TrimStart(s)|
  }

  /**
   * `s.trim()`: the slice of `s` left between a leading and a trailing run of whitespace,
   * with no whitespace at either of its own ends.
   */
  function Trim(s: string): (r: string)
    ensures LeadingWhitespace(s) + |r| <= |s|
    ensures r == s[LeadingWhitespace(s)..LeadingWhitespace(s) + |r|]
    ensures AllWhitespace(s[LeadingWhitespace(s) + |r|..])
    ensures r != [] ==> !IsJsWhitespace(r[0]) && !IsJsWhitespace(r[|r| - 1])
  {
    var t := TrimStart(s);
    var r := TrimEnd(t);
    assert r != [] ==> r[0] == t[0];
    assert s[LeadingWhitespace(s) + |r|..] == t[|r|..];
    r
  }

  /** The trimmed text is empty exactly when the input is nothing but whitespace. */
  lemma TrimEmptyIff(s: string)
    ensures Trim(s) == [] <==> AllWhitespace(s)
  {
  }

  /** Trimming a string that `trim()` already produced changes nothing. */
  lemma TrimIdempotent(s: string)
    ensures Trim(Trim(s)) == Trim(s)
  {
  }

  lemma {:induction false} TrimStartPast(lead: string, x: string)
    requires AllWhitespace(lead)
    requires x == [] || !IsJsWhitespace(x[0])
    ensures TrimStart(lead + x) == x
  {
    if lead != [] {
      assert (lead + x)[1..] == lead[1..] + x;
      TrimStartPast(lead[1..], x);
    } else {
      assert lead + x == x;
    }
  }

  lemma {:induction false} TrimEndBefore(x: string, trail: string)
    requires AllWhitespace(trail)
    requires x == [] || !IsJsWhitespace(x[|x| - 1])
    ensures TrimEnd(x + trail) == x
  {
    if trail != [] {
      var shorter := trail[..|trail| - 1];
      assert (x + trail)[..|x + trail| - 1] == x + shorter;
      TrimEndBefore(x, shorter);
    } else {
      assert x + trail == x;
    }
  }

  /** `trim()` recovers the text from any whitespace padding around it. */
  lemma TrimPadded(lead: string, core: string, trail: string)
    requires AllWhitespace(lead) && AllWhitespace(trail)
    requires core != [] ==> !IsJsWhitespace(core[0]) && !IsJsWhitespace(core[|core| - 1])
    ensures Trim(lead + core + trail) == core
  {
    if core == [] {
      assert lead + core + trail == lead + trail;
      assert AllWhitespace(lead + trail) by {
        forall i | 0 <= i < |lead + trail| ensures IsJsWhitespace((lead + trail)[i]) {
          if i >= |lead| { assert (lead + trail)[i] == trail[i - |lead|]; }
        }
      }
    } else {
      assert lead + core + trail == lead + (core + trail);
      TrimStartPast(lead, core + trail);
      TrimEndBefore(core, trail);
    }
  }
}
