/**
 * The few functions of Go's `strings` package that the plugin uses, on
 * strings modelled as sequences of characters.
 */
module GoStrings {

  /** `strings.Replace(s, " ", "", -1)`: every space character removed, all other characters kept in order. */
  function RemoveSpaces(s: string): (r: string)
    ensures ' ' !in r
    ensures |r| <= |s|
    ensures forall c :: c != ' ' && c in s ==> c in r
    ensures forall c :: c in r ==> c in s
  {
    if s == [] then [] else (if s[0] == ' ' then [] else [s[0]]) + RemoveSpaces(s[1..])
  }

  /** Every character other than a space is kept as many times as it occurs, and no space is. */
  lemma {:induction false} RemoveSpacesCounts(s: string)
    ensures multiset(RemoveSpaces(s)) == multiset(s)[' ' := 0]
  {
    if s != [] {
      assert s == [s[0]] + s[1..];
      RemoveSpacesCounts(s[1..]);
    }
  }

  /** Removing spaces distributes over concatenation. */
  lemma {:induction false} RemoveSpacesAppend(a: string, b: string)
    ensures RemoveSpaces(a + b) == RemoveSpaces(a) + RemoveSpaces(b)
  {
    if a == [] {
      assert a + b == b;
    } else {
      var head := if a[0] == ' ' then [] else [a[0]];
      assert (a + b)[0] == a[0] && (a + b)[1..] == a[1..] + b;
      assert RemoveSpaces(a + b) == head + RemoveSpaces(a[1..] + b);
      RemoveSpacesAppend(a[1..], b);
      assert head + (RemoveSpaces(a[1..]) + RemoveSpaces(b)) == (head + RemoveSpaces(a[1..])) + RemoveSpaces(b);
    }
  }

  /** A string without spaces is left as it is; in particular removing spaces is idempotent. */
  lemma {:induction false} RemoveSpacesIdentity(s: string)
    requires ' ' !in s
    ensures RemoveSpaces(s) == s
  {
    if s != [] {
      assert ' ' !in s[1..] by {
        forall i | 0 <= i < |s[1..]| ensures s[1..][i] != ' ' { assert s[1..][i] == s[i + 1]; }
      }
      RemoveSpacesIdentity(s[1..]);
    }
  }

  /** Nothing is left exactly when the string holds nothing but spaces. */
  lemma {:induction false} RemoveSpacesEmpty(s: string)
    ensures RemoveSpaces(s) == "" <==> forall i :: 0 <= i < |s| ==> s[i] == ' '
  {
    if s != [] {
      RemoveSpacesEmpty(s[1..]);
      assert forall i :: 1 <= i < |s| ==> s[i] == s[1..][i - 1];
    }
  }

  /** `strings.HasSuffix`. */
  predicate HasSuffix(s: string, suffix: string) {
    |suffix| <= |s| && s[|s| - |suffix|..] == suffix
  }

  /** `strings.TrimSuffix`: `s` without `suffix` if it ends with it, `s` unchanged otherwise. */
  function TrimSuffix(s: string, suffix: string): (r: string)
    ensures HasSuffix(s, suffix) ==> r + suffix == s
    ensures !HasSuffix(s, suffix) ==> r == s
  {
    if HasSuffix(s, suffix) then s[..|s| - |suffix|] else s
  }

  /** `strings.Join`: the elements in order, with `sep` between neighbours. */
  function Join(elems: seq<string>, sep: string): string
    decreases |elems|
  {
    if |elems| == 0 then ""
    else if |elems| == 1 then elems[0]
    else elems[0] + sep + Join(elems[1..], sep)
  }

  /** Joining one more element adds the separator and the element at the end. */
  lemma {:induction false} JoinSnoc(elems: seq<string>, last: string, sep: string)
    requires elems != []
    ensures Join(elems + [last], sep) == Join(elems, sep) + sep + last
    decreases |elems|
  {
    if |elems| == 1 {
      assert (elems + [last])[1..] == [last];
    } else {
      assert (elems + [last])[1..] == elems[1..] + [last];
      JoinSnoc(elems[1..], last, sep);
    }
  }

  /** `Join` of three elements, written out. */
  lemma JoinThree(elems: seq<string>, sep: string)
    requires |elems| == 3
    ensures Join(elems, sep) == elems[0] + sep + elems[1] + sep + elems[2]
  {
    assert elems[1..][1..] == [elems[2]];
    assert Join(elems[1..], sep) == elems[1] + sep + elems[2];
  }
}
