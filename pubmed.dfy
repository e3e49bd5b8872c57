// The filename sanitiser of the PubMed scraper: `CleanName` deletes every character of a
// fixed regular-expression character class from a file name (`re.sub` with an empty
// replacement), keeping the rest in order.
module PubMed {
  import opened Text

  // The members of the character class: backslash, slash, star, question mark, colon,
  // double quote, the two angle brackets, bar and dot.
  predicate IsForbidden(c: char)
  {
    c in "\\/*?:\"<>|."
  }

  predicate NoForbidden(s: string)
  {
    forall i :: 0 <= i < |s| ==> !IsForbidden(s[i])
  }

  /** `CleanName(fileName)`: the file name with every forbidden character deleted. */
  function CleanName(fileName: string): (r: string)
    ensures |r| <= |fileName|
    ensures NoForbidden(r)
  {
    if fileName == [] then ""
    else (if IsForbidden(fileName[0]) then "" else [fileName[0]]) + CleanName(fileName[1..])
  }

  /** The cleaned name is the input with some characters deleted and the others in order. */
  lemma {:induction false} CleanNameIsSubsequence(fileName: string)
    ensures IsSubsequence(CleanName(fileName), fileName)
    decreases |fileName|
  {
    if fileName != [] {
      var rest := CleanName(fileName[1..]);
      CleanNameIsSubsequence(fileName[1..]);
      if !IsForbidden(fileName[0]) {
        assert CleanName(fileName) == [fileName[0]] + rest;
        assert CleanName(fileName)[1..] == rest;
      } else {
        assert CleanName(fileName) == rest;
        SubsequenceOfTail(rest, fileName);
      }
    }
  }

  /** Every character that is not forbidden survives as often as it occurs in the input;
      forbidden ones are all gone. */
  lemma {:induction false} CleanNameCounts(fileName: string, c: char)
    ensures Count(CleanName(fileName), c) == if IsForbidden(c) then 0 else Count(fileName, c)
    decreases |fileName|
  {
    if fileName != [] {
      CleanNameCounts(fileName[1..], c);
      var head := if IsForbidden(fileName[0]) then "" else [fileName[0]];
      CountAppend(head, CleanName(fileName[1..]), c);
    }
  }

  lemma {:induction false} CountAppend(a: string, b: string, c: char)
    ensures Count(a + b, c) == Count(a, c) + Count(b, c)
    decreases |a|
  {
    if a != [] {
      assert (a + b)[1..] == a[1..] + b;
      CountAppend(a[1..], b, c);
    } else {
      assert a + b == b;
    }
  }

  /** A name is left unchanged exactly when it has no forbidden character; otherwise the
      cleaned name is strictly shorter. */
  lemma {:induction false} CleanNameUnchangedIff(fileName: string)
    ensures CleanName(fileName) == fileName <==> NoForbidden(fileName)
    ensures !NoForbidden(fileName) ==> |CleanName(fileName)| < |fileName|
    decreases |fileName|
  {
    if fileName != [] {
      var tail := fileName[1..];
      CleanNameUnchangedIff(tail);
      assert NoForbidden(fileName) <==> !IsForbidden(fileName[0]) && NoForbidden(tail) by {
        if !IsForbidden(fileName[0]) && NoForbidden(tail) {
          forall i | 0 <= i < |fileName| ensures !IsForbidden(fileName[i]) {
            if i > 0 { assert fileName[i] == tail[i - 1]; }
          }
        }
        if NoForbidden(fileName) {
          forall i | 0 <= i < |tail| ensures !IsForbidden(tail[i]) {
            assert tail[i] == fileName[i + 1];
          }
        }
      }
      if IsForbidden(fileName[0]) {
        assert |CleanName(fileName)| == |CleanName(tail)|;
      }
    }
  }

  /** Cleaning a cleaned name changes nothing. */
  lemma CleanNameIdempotent(fileName: string)
    ensures CleanName(CleanName(fileName)) == CleanName(fileName)
  {
    CleanNameUnchangedIff(CleanName(fileName));
  }
}
