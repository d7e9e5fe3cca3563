/** float_arr_to_string (client/io_stuff.c:94-132, the same text in server/io_stuff.c): one pass prints
    every float and counts, the next fills a buffer of exactly that size. */
module FloatText {
  import opened Words

  /** What snprintf leaves in the 100-byte buffer. */
  function Cut(s: string): (r: string)
    ensures r <= s && |r| == if |s| <= 99 then |s| else 99
  {
    if |s| <= 99 then s else s[..99]
  }

  /** The strings of a float array; `format` is what "%f" prints. */
  function Representations(format: Word -> string, xs: seq<Word>): (r: seq<string>)
    ensures |r| == |xs| && forall i :: 0 <= i < |r| ==> r[i] == Cut(format(xs[i]))
  {
    seq(|xs|, i requires 0 <= i < |xs| => Cut(format(xs[i])))
  }

  /** The strings one after the other, each followed by a space. */
  function Spaced(reps: seq<string>): string {
    if |reps| == 0 then [] else Spaced(reps[..|reps| - 1]) + reps[|reps| - 1] + [' ']
  }

  /** The buffer the function returns: the last space is replaced by the terminator. */
  function Text(reps: seq<string>): (s: string)
    requires |reps| > 0
    ensures |s| == |Spaced(reps)|
  {
    Spaced(reps)[|Spaced(reps)| - 1 := '\0']
  }

  lemma {:induction false} ShortIsWhole(s: string)
    requires |s| <= 99
    ensures Cut(s) == s
  {
  }

  lemma {:induction false} SpacedNext(reps: seq<string>, i: nat)
    requires i < |reps|
    ensures Spaced(reps[..i + 1]) == Spaced(reps[..i]) + reps[i] + [' ']
    ensures |Spaced(reps[..i + 1])| <= |Spaced(reps)|
    decreases |reps|
  {
    assert reps[..i + 1][..i] == reps[..i];
    if i + 1 == |reps| {
      assert reps[..i + 1] == reps;
    } else {
      var front := reps[..|reps| - 1];
      SpacedNext(front, i);
      assert front[..i + 1] == reps[..i + 1];
    }
  }

  // ---- Reading the text back ----

  /** Position of the first `c`, or the length if there is none. */
  function Find(s: string, c: char): (n: nat)
    ensures n <= |s| && (n < |s| ==> s[n] == c) && forall i :: 0 <= i < n ==> s[i] != c
  {
    if |s| == 0 || s[0] == c then 0 else 1 + Find(s[1..], c)
  }

  /** A C string: what comes before the terminator. */
  function CString(buf: string): string { buf[..Find(buf, '\0')] }

  function Split(s: string): seq<string>
    decreases |s|
  {
    var n := Find(s, ' ');
    if n == |s| then [s] else [s[..n]] + Split(s[n + 1..])
  }

  lemma {:induction false} FindIs(s: string, c: char, n: nat)
    requires n <= |s| && (n < |s| ==> s[n] == c) && forall i :: 0 <= i < n ==> s[i] != c
    ensures Find(s, c) == n
  {
  }

  predicate Plain(s: string) { ' ' !in s && '\0' !in s }

  ghost predicate AllPlain(reps: seq<string>) { forall i :: 0 <= i < |reps| ==> Plain(reps[i]) }

  /** The text without its terminator, built from the front. */
  function Joined(reps: seq<string>): string
    requires |reps| > 0
  {
    if |reps| == 1 then reps[0] else reps[0] + [' '] + Joined(reps[1..])
  }

  lemma {:induction false} SpacedLast(front: seq<string>, last: string)
    ensures Spaced(front + [last]) == Spaced(front) + last + [' ']
  {
    assert (front + [last])[..|front|] == front;
  }

  lemma {:induction false} SpacedFromFront(reps: seq<string>)
    requires |reps| > 0
    ensures Spaced(reps) == reps[0] + [' '] + Spaced(reps[1..])
    decreases |reps|
  {
    var n := |reps| - 1;
    var last := reps[n];
    assert reps == reps[..n] + [last];
    SpacedLast(reps[..n], last);
    if n == 0 {
      assert Spaced(reps[..0]) == [] && Spaced(reps[1..]) == [];
    } else {
      var middle := reps[1..n];
      assert reps[..n][1..] == middle && reps[1..] == middle + [last];
      SpacedFromFront(reps[..n]);
      SpacedLast(middle, last);
    }
  }

  lemma {:induction false} SpacedIsJoined(reps: seq<string>)
    requires |reps| > 0
    ensures Spaced(reps) == Joined(reps) + [' ']
    decreases |reps|
  {
    SpacedFromFront(reps);
    if |reps| > 1 {
      SpacedIsJoined(reps[1..]);
    }
  }

  lemma {:induction false} JoinedHasNoTerminator(reps: seq<string>)
    requires |reps| > 0 && AllPlain(reps)
    ensures '\0' !in Joined(reps)
    decreases |reps|
  {
    if |reps| > 1 {
      JoinedHasNoTerminator(reps[1..]);
    }
  }

  lemma {:induction false} SplitWord(w: string)
    requires ' ' !in w
    ensures Split(w) == [w]
  {
    FindIs(w, ' ', |w|);
  }

  lemma {:induction false} SplitFirst(w: string, rest: string)
    requires ' ' !in w
    ensures Split(w + [' '] + rest) == [w] + Split(rest)
  {
    var s := w + [' '] + rest;
    FindIs(s, ' ', |w|);
    assert s[..|w|] == w && s[|w| + 1..] == rest;
  }

  lemma {:induction false} SplitJoined(reps: seq<string>)
    requires |reps| > 0 && AllPlain(reps)
    ensures Split(Joined(reps)) == reps
    decreases |reps|
  {
    if |reps| == 1 {
      SplitWord(reps[0]);
      assert reps == [reps[0]];
    } else {
      SplitJoined(reps[1..]);
      SplitFirst(reps[0], Joined(reps[1..]));
      assert reps == [reps[0]] + reps[1..];
    }
  }

  /** Splitting the text at its spaces gives back the printed floats in order. */
  lemma {:induction false} TextSplitsBack(reps: seq<string>)
    requires |reps| > 0 && AllPlain(reps)
    ensures CString(Text(reps)) == Joined(reps) && Split(CString(Text(reps))) == reps
  {
    SpacedIsJoined(reps);
    JoinedHasNoTerminator(reps);
    SplitJoined(reps);
    var n := |Joined(reps)|;
    assert Text(reps) == Joined(reps) + ['\0'];
    FindIs(Text(reps), '\0', n);
  }

  /** What is asked of "%f" for a float to be found again in the text: no space or terminator, and at most
      99 characters. Every finite float's print is so. */
  ghost predicate Printable(format: Word -> string, xs: seq<Word>) {
    forall i :: 0 <= i < |xs| ==> Plain(format(xs[i])) && |format(xs[i])| <= 99
  }

  /** Then the text is the prints themselves, one for each float and in order. */
  lemma {:induction false} PrintsSplitBack(format: Word -> string, xs: seq<Word>)
    requires |xs| > 0 && Printable(format, xs)
    ensures var parts := Split(CString(Text(Representations(format, xs))));
            |parts| == |xs| && forall i :: 0 <= i < |parts| ==> parts[i] == format(xs[i])
  {
    var reps := Representations(format, xs);
    forall i | 0 <= i < |xs|
      ensures reps[i] == format(xs[i]) && Plain(reps[i])
    {
      ShortIsWhole(format(xs[i]));
    }
    TextSplitsBack(reps);
  }

  // ---- The two passes ----

  method CopyChars(dst: array<char>, at: nat, s: string)
    requires at + |s| <= dst.Length
    modifies dst
    ensures dst[at..at + |s|] == s && dst[..at] == old(dst[..at])
  {
    for i := 0 to |s|
      invariant dst[at..at + i] == s[..i] && dst[..at] == old(dst[..at])
    {
      dst[at + i] := s[i];
      assert dst[at..at + i + 1] == dst[at..at + i] + [s[i]];
    }
  }

  /** The first pass: the strings, and the bytes they and their separators take. */
  method FormatAll(format: Word -> string, arr: array<Word>) returns (floatStrings: array<string>, totalLen: nat)
    ensures fresh(floatStrings) && floatStrings[..] == Representations(format, arr[..])
    ensures forall i :: 0 <= i < arr.Length && |format(arr[i])| <= 99 ==> floatStrings[i] == format(arr[i])
    ensures totalLen == |Spaced(floatStrings[..])|
  {
    ghost var reps := Representations(format, arr[..]);
    totalLen := 0;
    floatStrings := new string[arr.Length];
    for i := 0 to arr.Length
      invariant totalLen == |Spaced(reps[..i])|
      invariant floatStrings[..i] == reps[..i]
    {
      var repr := Cut(format(arr[i]));
      SpacedNext(reps, i);
      totalLen := totalLen + |repr| + 1;
      floatStrings[i] := repr;
    }
    assert reps[..arr.Length] == reps;
    forall i | 0 <= i < arr.Length && |format(arr[i])| <= 99
      ensures floatStrings[i] == format(arr[i])
    {
      ShortIsWhole(format(arr[i]));
      assert floatStrings[i] == reps[i];
    }
  }

  /** The second pass: it fills the buffer to its last byte, and no further. */
  method Concatenate(floatStrings: array<string>, totalLen: nat) returns (result: array<char>)
    requires floatStrings.Length > 0 && totalLen == |Spaced(floatStrings[..])|
    ensures fresh(result) && result[..] == Text(floatStrings[..])
  {
    ghost var reps := floatStrings[..];
    result := new char[totalLen];
    var offset := 0;
    for i := 0 to floatStrings.Length
      invariant floatStrings[..] == reps
      invariant offset == |Spaced(reps[..i])| <= totalLen && result[..offset] == Spaced(reps[..i])
    {
      var repr := floatStrings[i];
      SpacedNext(reps, i);
      ghost var before := result[..offset];
      CopyChars(result, offset, repr);
      result[offset + |repr|] := ' ';
      assert result[..offset + |repr| + 1] == before + repr + [' '];
      offset := offset + |repr| + 1;
    }
    assert reps[..floatStrings.Length] == reps;
    SpacedIsJoined(reps);
    result[offset - 1] := '\0';
  }

  method FloatArrToString(format: Word -> string, arr: array?<Word>) returns (result: array<char>)
    ensures arr == null || arr.Length == 0 ==> result[..] == ['\0']
    ensures arr != null && arr.Length > 0 ==> result[..] == Text(Representations(format, arr[..]))
    ensures arr != null && arr.Length > 0 && Printable(format, arr[..]) ==>
              var parts := Split(CString(result[..]));
              |parts| == arr.Length && forall i :: 0 <= i < |parts| ==> parts[i] == format(arr[i])
  {
    if arr == null || arr.Length == 0 {
      result := new char[]['\0'];
      return;
    }
    var floatStrings, totalLen := FormatAll(format, arr);
    result := Concatenate(floatStrings, totalLen);
    if Printable(format, arr[..]) {
      PrintsSplitBack(format, arr[..]);
    }
  }
}
