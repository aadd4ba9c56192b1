/** The few Python string operations the assistant relies on, stated over `string`
    (a sequence of Unicode scalar values). Case mapping is the ASCII one; Python's full
    Unicode case tables are not modelled. */
module Text {

  /** `k` occurs at position `i` of `s`: the reference definition of substring containment. */
  ghost predicate OccursAt(s: string, k: string, i: int)
  {
    0 <= i && i + |k| <= |s| && s[i..i + |k|] == k
  }

  /** Python's `k in s` for two strings. */
  function Contains(s: string, k: string): bool
    decreases |s|
  {
    if k <= s then true
    else if |s| == 0 then false
    else Contains(s[1..], k)
  }

  /** `Contains` agrees with the reference definition, in both directions. */
  lemma {:induction false} ContainsIff(s: string, k: string)
    ensures Contains(s, k) <==> exists i :: OccursAt(s, k, i)
    decreases |s|
  {
    if k <= s {
      assert s[0..|k|] == k;
      assert OccursAt(s, k, 0);
    } else if |s| == 0 {
    } else {
      ContainsIff(s[1..], k);
      forall i | OccursAt(s[1..], k, i) ensures OccursAt(s, k, i + 1) {
        assert s[1..][i..i + |k|] == s[i + 1..i + 1 + |k|];
      }
      forall i | OccursAt(s, k, i) ensures i >= 1 && OccursAt(s[1..], k, i - 1) {
        assert s[1..][i - 1..i - 1 + |k|] == s[i..i + |k|];
      }
    }
  }

  /** An occurrence at a known position is found by `Contains`. */
  lemma ContainsAt(s: string, k: string, i: int)
    requires OccursAt(s, k, i)
    ensures Contains(s, k)
  {
    ContainsIff(s, k);
  }

  /** A string contains every one of its infixes. */
  lemma ContainsInfix(a: string, k: string, b: string)
    ensures Contains(a + k + b, k)
  {
    assert (a + k + b)[|a|..|a| + |k|] == k;
    ContainsAt(a + k + b, k, |a|);
  }

  /** Containment is transitive: what occurs inside an occurring string occurs in the whole. */
  lemma ContainsTransitive(s: string, k: string, k': string)
    requires Contains(s, k) && Contains(k, k')
    ensures Contains(s, k')
  {
    ContainsIff(s, k);
    ContainsIff(k, k');
    var i :| OccursAt(s, k, i);
    var j :| OccursAt(k, k', j);
    forall t | 0 <= t < |k'| ensures s[i + j + t] == k'[t] {
      assert k'[t] == k[j..j + |k'|][t] == k[j + t] == s[i..i + |k|][j + t];
    }
    assert s[i + j..i + j + |k'|] == k';
    ContainsAt(s, k', i + j);
  }

  /** A non-empty string with a character that `s` lacks does not occur in `s`. */
  lemma MissingCharNotContained(s: string, k: string, c: char)
    requires c in k && c !in s
    ensures !Contains(s, k)
  {
    ContainsIff(s, k);
  }

  function LowerChar(c: char): char
  {
    if 'A' <= c <= 'Z' then (c as int + 32) as char else c
  }

  function UpperChar(c: char): char
  {
    if 'a' <= c <= 'z' then (c as int - 32) as char else c
  }

  /** Python's `str.lower()`, with ASCII case mapping. */
  function ToLower(s: string): (r: string)
    ensures |r| == |s| && forall i :: 0 <= i < |s| ==> r[i] == LowerChar(s[i])
  {
    seq(|s|, i requires 0 <= i < |s| => LowerChar(s[i]))
  }

  /** Python's `str.upper()`, with ASCII case mapping. */
  function ToUpper(s: string): (r: string)
    ensures |r| == |s| && forall i :: 0 <= i < |s| ==> r[i] == UpperChar(s[i])
  {
    seq(|s|, i requires 0 <= i < |s| => UpperChar(s[i]))
  }

  /** The characters Python's `str.isspace()` accepts, which `str.strip()` with no argument
      removes: the ASCII white space and separators U+0009..U+000D and U+001C..U+0020, and
      the Unicode spaces U+0085, U+00A0, U+1680, U+2000..U+200A, U+2028, U+2029, U+202F,
      U+205F and U+3000. */
  predicate IsSpace(c: char)
  {
    ('\U{0009}' <= c <= '\U{000D}') || ('\U{001C}' <= c <= '\U{0020}')
    || c == '\U{0085}' || c == '\U{00A0}' || c == '\U{1680}'
    || ('\U{2000}' <= c <= '\U{200A}') || c == '\U{2028}' || c == '\U{2029}'
    || c == '\U{202F}' || c == '\U{205F}' || c == '\U{3000}'
  }

  function TrimLeft(s: string): string
  {
    if |s| > 0 && IsSpace(s[0]) then TrimLeft(s[1..]) else s
  }

  function TrimRight(s: string): string
  {
    if |s| > 0 && IsSpace(s[|s| - 1]) then TrimRight(s[..|s| - 1]) else s
  }

  /** Python's `str.strip()` with no argument. */
  function Strip(s: string): string
  {
    TrimRight(TrimLeft(s))
  }

  /** Every character of `s` is white space (true of the empty string). */
  ghost predicate AllSpace(s: string)
  {
    forall i :: 0 <= i < |s| ==> IsSpace(s[i])
  }

  lemma {:induction false} TrimLeftEmptyIff(s: string)
    ensures TrimLeft(s) == [] <==> AllSpace(s)
  {
    if |s| > 0 && IsSpace(s[0]) {
      TrimLeftEmptyIff(s[1..]);
      assert AllSpace(s[1..]) ==> AllSpace(s) by {
        if AllSpace(s[1..]) {
          forall i | 0 <= i < |s| ensures IsSpace(s[i]) {
            if i > 0 { assert s[i] == s[1..][i - 1]; }
          }
        }
      }
    }
  }

  lemma {:induction false} TrimRightIsPrefix(s: string)
    ensures TrimRight(s) <= s
  {
    if |s| > 0 && IsSpace(s[|s| - 1]) {
      TrimRightIsPrefix(s[..|s| - 1]);
    }
  }

  lemma {:induction false} TrimRightKeepsNonSpaceHead(s: string)
    requires |s| > 0 && !IsSpace(s[0])
    ensures TrimRight(s) != []
  {
    if IsSpace(s[|s| - 1]) {
      TrimRightKeepsNonSpaceHead(s[..|s| - 1]);
    }
  }

  /** `strip()` yields the empty string exactly when every character is white space. */
  lemma StripEmptyIff(s: string)
    ensures Strip(s) == [] <==> AllSpace(s)
  {
    TrimLeftEmptyIff(s);
    var t := TrimLeft(s);
    if t != [] {
      assert !IsSpace(t[0]) by { TrimLeftStopsAtNonSpace(s); }
      TrimRightKeepsNonSpaceHead(t);
    }
  }

  lemma {:induction false} TrimLeftStopsAtNonSpace(s: string)
    ensures TrimLeft(s) != [] ==> !IsSpace(TrimLeft(s)[0])
  {
    if |s| > 0 && IsSpace(s[0]) {
      TrimLeftStopsAtNonSpace(s[1..]);
    }
  }

  /** Python's `sep.join(xs)`. */
  function Join(sep: string, xs: seq<string>): string
  {
    if |xs| == 0 then ""
    else if |xs| == 1 then xs[0]
    else Join(sep, xs[..|xs| - 1]) + sep + xs[|xs| - 1]
  }

  /** A character absent from the separator and from every part is absent from the join. */
  lemma {:induction false} JoinLacks(sep: string, xs: seq<string>, c: char)
    requires c !in sep && forall i :: 0 <= i < |xs| ==> c !in xs[i]
    ensures c !in Join(sep, xs)
  {
    if |xs| > 1 {
      JoinLacks(sep, xs[..|xs| - 1], c);
    }
  }

  /** The join starts with the first part. */
  lemma {:induction false} JoinStartsWithFirst(sep: string, xs: seq<string>)
    requires |xs| > 0
    ensures xs[0] <= Join(sep, xs)
  {
    if |xs| > 1 {
      JoinStartsWithFirst(sep, xs[..|xs| - 1]);
    }
  }

  /** Python's `"".join(ss)`: the strings of `ss`, one after the other. */
  function Concat(ss: seq<string>): string
  {
    if |ss| == 0 then "" else Concat(ss[..|ss| - 1]) + ss[|ss| - 1]
  }

  lemma {:induction false} ConcatAppend(xs: seq<string>, ys: seq<string>)
    ensures Concat(xs + ys) == Concat(xs) + Concat(ys)
    decreases |ys|
  {
    if |ys| == 0 {
      assert xs + ys == xs;
    } else {
      var ys' := ys[..|ys| - 1];
      assert (xs + ys)[..|xs + ys| - 1] == xs + ys';
      ConcatAppend(xs, ys');
    }
  }
}
