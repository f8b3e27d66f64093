/**
 * The string handling of the inventory and recipe forms: lower-casing, the `\s`
 * whitespace class of JavaScript regular expressions, the id slug generated from a
 * name, and `String.prototype.includes`.
 */
module Text {

  /** `toLowerCase` on one character; only the ASCII capitals are modelled. */
  function LowerChar(c: char): (d: char)
    ensures 'A' <= c <= 'Z' ==> 'a' <= d <= 'z' && d as int == c as int + 32
    ensures !('A' <= c <= 'Z') ==> d == c
  {
    if 'A' <= c <= 'Z' then (c as int + 32) as char else c
  }

  function Lower(s: string): (t: string)
    ensures |t| == |s| && forall i :: 0 <= i < |s| ==> t[i] == LowerChar(s[i])
  {
    seq(|s|, i requires 0 <= i < |s| => LowerChar(s[i]))
  }

  /** The characters `\s` matches: the ASCII blanks, no-break space, BOM and the Unicode space separators. */
  predicate IsSpace(c: char)
  {
    c == ' ' || c == '\t' || c == '\n' || c == '\r' || c == '\U{000B}' || c == '\U{000C}'
    || c == '\U{00A0}' || c == '\U{1680}' || ('\U{2000}' <= c <= '\U{200A}')
    || c == '\U{2028}' || c == '\U{2029}' || c == '\U{202F}' || c == '\U{205F}'
    || c == '\U{3000}' || c == '\U{FEFF}'
  }

  /** The rest of `s` after its leading whitespace. */
  function DropSpaces(s: string): (t: string)
    ensures |t| <= |s| && t == s[|s| - |t|..]
    ensures |t| > 0 ==> !IsSpace(t[0])
    ensures forall i :: 0 <= i < |s| - |t| ==> IsSpace(s[i])
  {
    if |s| > 0 && IsSpace(s[0]) then DropSpaces(s[1..]) else s
  }

  /** `name.toLowerCase().replace(/\s+/g, '-')`: lower-case, each whitespace run one dash. */
  function Slug(s: string): (t: string)
    ensures |t| <= |s|
    decreases |s|
  {
    if |s| == 0 then ""
    else if IsSpace(s[0]) then "-" + Slug(DropSpaces(s[1..]))
    else [LowerChar(s[0])] + Slug(s[1..])
  }

  /** What a slug looks like: no whitespace and no capitals. */
  predicate IsSlug(t: string)
  {
    forall i :: 0 <= i < |t| ==> !IsSpace(t[i]) && !('A' <= t[i] <= 'Z')
  }

  lemma {:induction false} SlugIsSlug(s: string)
    ensures IsSlug(Slug(s))
    decreases |s|
  {
    if |s| > 0 {
      if IsSpace(s[0]) {
        SlugIsSlug(DropSpaces(s[1..]));
      } else {
        SlugIsSlug(s[1..]);
      }
    }
  }

  /** A slug is its own slug. */
  lemma {:induction false} SlugOfSlug(t: string)
    requires IsSlug(t)
    ensures Slug(t) == t
  {
    if |t| > 0 {
      SlugOfSlug(t[1..]);
      assert t == [t[0]] + t[1..];
    }
  }

  /** Generating the id again from a generated id changes nothing. */
  lemma SlugIdempotent(s: string)
    ensures Slug(Slug(s)) == Slug(s)
  {
    SlugIsSlug(s);
    SlugOfSlug(Slug(s));
  }

  /** A whole whitespace run, however long, becomes a single dash. */
  lemma {:induction false} SlugCollapsesRun(w: string, rest: string)
    requires |w| > 0 && forall i :: 0 <= i < |w| ==> IsSpace(w[i])
    requires |rest| == 0 || !IsSpace(rest[0])
    ensures Slug(w + rest) == "-" + Slug(rest)
  {
    assert (w + rest)[1..] == w[1..] + rest;
    DropRun(w[1..], rest);
  }

  lemma {:induction false} DropRun(w: string, rest: string)
    requires forall i :: 0 <= i < |w| ==> IsSpace(w[i])
    requires |rest| == 0 || !IsSpace(rest[0])
    ensures DropSpaces(w + rest) == rest
  {
    if |w| > 0 {
      assert (w + rest)[1..] == w[1..] + rest;
      DropRun(w[1..], rest);
    } else {
      assert w + rest == rest;
    }
  }

  /** Text without whitespace only gets lower-cased. */
  lemma {:induction false} SlugWithoutSpaces(s: string)
    requires forall i :: 0 <= i < |s| ==> !IsSpace(s[i])
    ensures Slug(s) == Lower(s)
  {
    if |s| > 0 {
      SlugWithoutSpaces(s[1..]);
      assert Lower(s) == [LowerChar(s[0])] + Lower(s[1..]);
    }
  }

  predicate StartsWith(s: string, t: string)
  {
    |t| <= |s| && s[..|t|] == t
  }

  /** `s.includes(t)`: `t` starts at some position of `s`. */
  predicate Contains(s: string, t: string)
    decreases |s|
  {
    StartsWith(s, t) || (|s| > 0 && Contains(s[1..], t))
  }

  /** `t` occurs in `s` starting at position `i`. */
  predicate OccursAt(s: string, t: string, i: int)
  {
    0 <= i <= |s| - |t| && s[i..i + |t|] == t
  }

  /** `Contains` agrees with the substring definition. */
  lemma {:induction false} ContainsIffSubstring(s: string, t: string)
    ensures Contains(s, t) <==> exists i :: OccursAt(s, t, i)
  {
    if StartsWith(s, t) {
      assert OccursAt(s, t, 0);
    }
    if |s| > 0 {
      ContainsIffSubstring(s[1..], t);
      if Contains(s[1..], t) {
        var i :| OccursAt(s[1..], t, i);
        assert s[1..][i..i + |t|] == s[i + 1..i + 1 + |t|];
        assert OccursAt(s, t, i + 1);
      }
      if exists i :: OccursAt(s, t, i) {
        var i :| OccursAt(s, t, i);
        if i > 0 {
          assert s[1..][i - 1..i - 1 + |t|] == s[i..i + |t|];
          assert OccursAt(s[1..], t, i - 1);
        } else {
          assert StartsWith(s, t);
        }
      }
    } else if exists i :: OccursAt(s, t, i) {
      var i :| OccursAt(s, t, i);
      assert i == 0 && |t| == 0;
      assert StartsWith(s, t);
    }
  }
}
