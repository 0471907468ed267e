/** Small shared vocabulary: optional values, user-facing notices and the two
    string operations the application relies on (`includes` and `split(' ')`). */
module Common {

  datatype Option<+T> = None | Some(value: T)

  datatype Result<+T, +E> = Ok(value: T) | Err(error: E)

  /** A toast shown to the user. */
  datatype Notice = ErrorNotice(text: string) | SuccessNotice(text: string)

  /** `list || []` for a list that may be absent (an empty list is truthy, so it is kept). */
  function OrEmpty<T>(list: Option<seq<T>>): (r: seq<T>)
    ensures list.Some? ==> r == list.value
    ensures list.None? ==> r == []
  {
    if list.Some? then list.value else []
  }

  /** JavaScript truthiness of an optional string: `undefined` and `""` are falsy. */
  predicate Truthy(s: Option<string>) {
    s.Some? && s.value != ""
  }

  /** `a || b` on an optional string whose fallback is a plain string. */
  function OrElse(s: Option<string>, fallback: string): (r: string)
    ensures Truthy(s) ==> r == s.value
    ensures !Truthy(s) ==> r == fallback
  {
    if s.Some? && s.value != "" then s.value else fallback
  }

  // ---------------------------------------------------------------------------
  // String.prototype.includes

  /** `s.includes(sub)`, written as a scan from the left. */
  function Contains(s: string, sub: string): bool
    decreases |s|
  {
    if |sub| > |s| then false
    else if s[..|sub|] == sub then true
    else Contains(s[1..], sub)
  }

  /** `sub` occurs in `s` starting at offset `i`. */
  predicate OccursAt(s: string, sub: string, i: int) {
    0 <= i && i + |sub| <= |s| && s[i..i + |sub|] == sub
  }

  /** The scan agrees with the definition by an occurrence at some offset. */
  lemma {:induction false} ContainsIff(s: string, sub: string)
    ensures Contains(s, sub) <==> exists i :: OccursAt(s, sub, i)
    decreases |s|
  {
    if |sub| > |s| {
    } else if s[..|sub|] == sub {
      assert OccursAt(s, sub, 0);
    } else {
      ContainsIff(s[1..], sub);
      if Contains(s[1..], sub) {
        var j :| OccursAt(s[1..], sub, j);
        assert s[j + 1..j + 1 + |sub|] == s[1..][j..j + |sub|];
        assert OccursAt(s, sub, j + 1);
      }
      if exists i :: OccursAt(s, sub, i) {
        var i :| OccursAt(s, sub, i);
        assert i != 0;
        assert s[1..][i - 1..i - 1 + |sub|] == s[i..i + |sub|];
        assert OccursAt(s[1..], sub, i - 1);
      }
    }
  }

  /** A string contains every string of which it is a prefix-extension. */
  lemma ContainsPrefix(sub: string, rest: string)
    ensures Contains(sub + rest, sub)
  {
    assert (sub + rest)[..|sub|] == sub;
  }

  /** A string in which the first character of `sub` never starts a long enough window
      does not contain `sub`. */
  lemma {:induction false} NotContainedWithoutFirstChar(s: string, sub: string)
    requires |sub| > 0
    requires forall k :: 0 <= k <= |s| - |sub| ==> s[k] != sub[0]
    ensures !Contains(s, sub)
    decreases |s|
  {
    if |sub| <= |s| {
      assert s[..|sub|][0] == s[0];
      NotContainedWithoutFirstChar(s[1..], sub);
    }
  }

  // ---------------------------------------------------------------------------
  // String.prototype.length

  /** Whether a character lies outside the Basic Multilingual Plane, so that UTF-16
      stores it as a surrogate pair. */
  predicate Astral(c: char) {
    c as int >= 0x10000
  }

  /** `s.length` in JavaScript: UTF-16 code units, two for an astral character. */
  function Utf16Length(s: string): (n: nat)
    ensures |s| <= n <= 2 * |s|
    decreases |s|
  {
    if s == [] then 0 else (if Astral(s[0]) then 2 else 1) + Utf16Length(s[1..])
  }

  /** A single character is one code unit, or two when it is astral. */
  lemma Utf16LengthOfChar(c: char)
    ensures Utf16Length([c]) == if Astral(c) then 2 else 1
  {
    assert [c][1..] == [];
  }

  /** The code-unit count of a concatenation is the sum of the parts' counts. */
  lemma {:induction false} Utf16LengthAppend(a: string, b: string)
    ensures Utf16Length(a + b) == Utf16Length(a) + Utf16Length(b)
    decreases |a|
  {
    if a != [] {
      assert (a + b)[0] == a[0];
      assert (a + b)[1..] == a[1..] + b;
      Utf16LengthAppend(a[1..], b);
    } else {
      assert a + b == b;
    }
  }

  /** Without astral characters, code units and characters agree. */
  lemma {:induction false} Utf16LengthWithoutAstral(s: string)
    requires forall k :: 0 <= k < |s| ==> !Astral(s[k])
    ensures Utf16Length(s) == |s|
    decreases |s|
  {
    if s != [] {
      assert forall k :: 0 <= k < |s[1..]| ==> s[1..][k] == s[k + 1];
      Utf16LengthWithoutAstral(s[1..]);
    }
  }

  // ---------------------------------------------------------------------------
  // String.prototype.split(' ')

  predicate NoSpace(s: string) {
    forall k :: 0 <= k < |s| ==> s[k] != ' '
  }

  /** `s.split(' ')`: the segments between single spaces, empty ones included. */
  function SplitSpace(s: string): (r: seq<string>)
    ensures |r| >= 1
    decreases |s|
  {
    if s == [] then [""]
    else if s[0] == ' ' then [""] + SplitSpace(s[1..])
    else
      var rest := SplitSpace(s[1..]);
      [[s[0]] + rest[0]] + rest[1..]
  }

  /** `segments.join(' ')`. */
  function JoinSpace(segments: seq<string>): string
    requires |segments| >= 1
    decreases |segments|
  {
    if |segments| == 1 then segments[0]
    else segments[0] + " " + JoinSpace(segments[1..])
  }

  /** Every segment of a split is free of spaces. */
  lemma {:induction false} SplitSegmentsHaveNoSpace(s: string)
    ensures forall k :: 0 <= k < |SplitSpace(s)| ==> NoSpace(SplitSpace(s)[k])
    decreases |s|
  {
    if s != [] {
      SplitSegmentsHaveNoSpace(s[1..]);
      var rest := SplitSpace(s[1..]);
      var r := SplitSpace(s);
      if s[0] == ' ' {
        assert r[1..] == rest;
        forall k | 0 <= k < |r| ensures NoSpace(r[k]) {
          if k > 0 { assert r[k] == rest[k - 1]; }
        }
      } else {
        assert r[0] == [s[0]] + rest[0];
        forall k | 0 <= k < |r| ensures NoSpace(r[k]) {
          if k > 0 { assert r[k] == rest[k]; }
        }
      }
    }
  }

  /** Splitting yields only space-free segments, and joining them back gives the input. */
  lemma {:induction false} SplitJoinRoundTrip(s: string)
    ensures forall k :: 0 <= k < |SplitSpace(s)| ==> NoSpace(SplitSpace(s)[k])
    ensures JoinSpace(SplitSpace(s)) == s
    decreases |s|
  {
    SplitSegmentsHaveNoSpace(s);
    if s != [] {
      SplitJoinRoundTrip(s[1..]);
      var rest := SplitSpace(s[1..]);
      var r := SplitSpace(s);
      if s[0] == ' ' {
        assert r[1..] == rest;
        assert s == [' '] + s[1..];
      } else {
        assert r[0] == [s[0]] + rest[0];
        assert r[1..] == rest[1..];
        if |rest| == 1 {
          assert JoinSpace(r) == [s[0]] + rest[0];
        } else {
          assert JoinSpace(r) == [s[0]] + rest[0] + " " + JoinSpace(rest[1..]);
          assert JoinSpace(rest) == rest[0] + " " + JoinSpace(rest[1..]);
        }
        assert s == [s[0]] + s[1..];
      }
    }
  }

  /** A word without spaces splits into itself alone. */
  lemma {:induction false} SplitWord(w: string)
    requires NoSpace(w)
    ensures SplitSpace(w) == [w]
    decreases |w|
  {
    if w != [] {
      SplitWord(w[1..]);
      assert [w[0]] + w[1..] == w;
    }
  }

  /** A space-free word followed by a space and a tail: the word is the first segment. */
  lemma {:induction false} SplitAfterWord(w: string, tail: string)
    requires NoSpace(w)
    ensures SplitSpace(w + " " + tail) == [w] + SplitSpace(tail)
    decreases |w|
  {
    if w == [] {
      assert w + " " + tail == [' '] + tail;
      assert (w + " " + tail)[1..] == tail;
    } else {
      SplitAfterWord(w[1..], tail);
      var s := w + " " + tail;
      assert s[1..] == w[1..] + " " + tail;
      assert [w[0]] + w[1..] == w;
    }
  }
}
