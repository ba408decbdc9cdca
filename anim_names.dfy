/** The option string of the animation drop-down: the names of the loaded
    animations joined with ';' into one NUL-terminated buffer, sized from the
    names' lengths and filled with strcpy and strcat. */
module AnimNames {

  const SizeModulus: int := 0x1_0000_0000_0000_0000

  const Nul: char := '\0'

  /** A name as strlen and strcat see it: no NUL inside. */
  predicate IsCString(s: string)
  {
    Nul !in s
  }

  /** The sum of strlen over the names. */
  function SumLengths(names: seq<string>): nat
  {
    if |names| == 0 then 0 else SumLengths(names[..|names| - 1]) + |names[|names| - 1]|
  }

  /** The names joined with ';' in order: the first name, then ";" and the next name
      for each further one. */
  function Join(names: seq<string>): (r: string)
    requires |names| >= 1
    ensures |r| == SumLengths(names) + |names| - 1
    ensures (forall i :: 0 <= i < |names| ==> IsCString(names[i])) ==> IsCString(r)
  {
    if |names| == 1 then names[0]
    else Join(names[..|names| - 1]) + ";" + names[|names| - 1]
  }

  /** The buffer size the loader computes, in size_t arithmetic: the lengths, one
      ';' between each pair of names (animsCount - 1, converted to size_t), and one
      byte for the terminator. */
  function BufferSize(names: seq<string>): (size: int)
    ensures 0 <= size < SizeModulus
  {
    var total := SizeT(SumLengths(names));
    var withSeparators := SizeT(total + SizeT(|names| - 1));
    SizeT(withSeparators + 1)
  }

  /** An integer converted to size_t. */
  function SizeT(x: int): (r: int)
    ensures 0 <= r < SizeModulus
    ensures 0 <= x < SizeModulus ==> r == x
  {
    x % SizeModulus
  }

  /** With at least one name and no overflow, the buffer has room for the joined
      string and its terminator and not one byte more. */
  lemma BufferFitsJoin(names: seq<string>)
    requires |names| >= 1 && SumLengths(names) + |names| < SizeModulus
    ensures BufferSize(names) == |Join(names)| + 1
  {
  }

  /** With no animations the size wraps round to zero, yet strcpy then reads the
      first name and writes at least its terminator. */
  lemma NoNamesWrapsToEmptyBuffer()
    ensures BufferSize([]) == 0
  {
    assert SizeT(0 - 1) == SizeModulus - 1;
  }

  // ---------------------------------------------------------------- splitting

  /** The position of the last occurrence of c in s. */
  function LastIndexOf(s: string, c: char): (i: nat)
    requires c in s
    ensures i < |s| && s[i] == c && c !in s[i + 1..]
  {
    if s[|s| - 1] == c then |s| - 1 else LastIndexOf(s[..|s| - 1], c)
  }

  /** The inverse of Join: the pieces of s between the ';' characters. */
  function Split(s: string): (pieces: seq<string>)
    ensures |pieces| >= 1
    decreases |s|
  {
    if ';' !in s then [s]
    else
      var i := LastIndexOf(s, ';');
      Split(s[..i]) + [s[i + 1..]]
  }

  /** The last ';' of p + ";" + t, when t has none, is the one between them. */
  lemma LastSeparator(p: string, t: string)
    requires ';' !in t
    ensures ';' in p + ";" + t && LastIndexOf(p + ";" + t, ';') == |p|
  {
    var s := p + ";" + t;
    assert s[|p|] == ';';
  }

  /** Splitting the joined names on ';' gives the names back, provided none of them
      contains a ';'. */
  lemma {:induction false} SplitJoin(names: seq<string>)
    requires |names| >= 1
    requires forall i :: 0 <= i < |names| ==> ';' !in names[i]
    ensures Split(Join(names)) == names
  {
    if |names| > 1 {
      var front, last := names[..|names| - 1], names[|names| - 1];
      var p := Join(front);
      SplitJoin(front);
      LastSeparator(p, last);
      assert (p + ";" + last)[..|p|] == p;
      assert (p + ";" + last)[|p| + 1..] == last;
      assert front + [last] == names;
    }
  }

  /** Distinct name lists give distinct option strings, when no name contains ';'. */
  lemma JoinInjective(a: seq<string>, b: seq<string>)
    requires |a| >= 1 && |b| >= 1
    requires forall i :: 0 <= i < |a| ==> ';' !in a[i]
    requires forall i :: 0 <= i < |b| ==> ';' !in b[i]
    requires Join(a) == Join(b)
    ensures a == b
  {
    SplitJoin(a);
    SplitJoin(b);
  }

  // ---------------------------------------------------------------- the C string routines

  /** strlen: the index of the first NUL. */
  function StrLenOf(cs: seq<char>): (n: nat)
    requires Nul in cs
    ensures n < |cs| && cs[n] == Nul && Nul !in cs[..n]
  {
    if cs[0] == Nul then 0 else 1 + StrLenOf(cs[1..])
  }

  /** strlen, scanning the buffer. */
  method StrLen(buffer: array<char>) returns (n: nat)
    requires Nul in buffer[..]
    ensures n == StrLenOf(buffer[..])
  {
    n := 0;
    while buffer[n] != Nul
      invariant n <= StrLenOf(buffer[..])
      invariant Nul !in buffer[..n]
      decreases StrLenOf(buffer[..]) - n
    {
      assert buffer[..n + 1] == buffer[..n] + [buffer[n]];
      n := n + 1;
    }
    assert buffer[..][..StrLenOf(buffer[..])] == buffer[..StrLenOf(buffer[..])];
  }

  /** Copies s and a terminator into the buffer starting at index at. */
  method CopyAt(buffer: array<char>, at: nat, s: string)
    requires at + |s| < buffer.Length
    modifies buffer
    ensures buffer[..at + |s| + 1] == old(buffer[..at]) + s + [Nul]
    ensures buffer[at + |s| + 1..] == old(buffer[at + |s| + 1..])
  {
    for k := 0 to |s|
      invariant buffer[..at + k] == old(buffer[..at]) + s[..k]
      invariant buffer[at + |s| + 1..] == old(buffer[at + |s| + 1..])
    {
      buffer[at + k] := s[k];
      assert buffer[..at + k + 1] == buffer[..at + k] + [s[k]];
    }
    buffer[at + |s|] := Nul;
    assert buffer[..at + |s| + 1] == buffer[..at + |s|] + [Nul];
  }

  /** strcpy(buffer, s). */
  method StrCpy(buffer: array<char>, s: string)
    requires IsCString(s) && |s| < buffer.Length
    modifies buffer
    ensures Nul in buffer[..] && buffer[..StrLenOf(buffer[..])] == s
    ensures buffer[..|s| + 1] == s + [Nul]
    ensures buffer[|s| + 1..] == old(buffer[|s| + 1..])
  {
    CopyAt(buffer, 0, s);
    NulAfter(buffer[..], s);
  }

  /** strcat(buffer, s): s and a terminator replace the buffer's terminator. */
  method StrCat(buffer: array<char>, s: string)
    requires Nul in buffer[..] && IsCString(s)
    requires StrLenOf(buffer[..]) + |s| < buffer.Length
    modifies buffer
    ensures Nul in buffer[..]
    ensures buffer[..StrLenOf(buffer[..])] == old(buffer[..StrLenOf(buffer[..])]) + s
    ensures StrLenOf(buffer[..]) == old(StrLenOf(buffer[..])) + |s|
    ensures buffer[old(StrLenOf(buffer[..])) + |s| + 1..] == old(buffer[StrLenOf(buffer[..]) + |s| + 1..])
  {
    var n := StrLen(buffer);
    ghost var before := buffer[..n];
    assert IsCString(before);
    CopyAt(buffer, n, s);
    NulAfter(buffer[..], before + s);
  }

  /** A buffer that starts with a C string and its terminator has that strlen. */
  lemma NulAfter(cs: seq<char>, s: string)
    requires IsCString(s) && |s| < |cs| && cs[..|s| + 1] == s + [Nul]
    ensures Nul in cs && StrLenOf(cs) == |s| && cs[..StrLenOf(cs)] == s
  {
    assert cs[|s|] == (s + [Nul])[|s|];
    assert cs[..|s|] == (s + [Nul])[..|s|];
  }

  // ---------------------------------------------------------------- building the options

  /** The loader's join: sums the name lengths, allocates the buffer, copies the
      first name and appends ";" and each further name. */
  method BuildNameOptions(names: seq<string>) returns (buffer: array<char>)
    requires |names| >= 1
    requires forall i :: 0 <= i < |names| ==> IsCString(names[i])
    ensures buffer.Length == SumLengths(names) + |names|
    ensures buffer[..] == Join(names) + [Nul]
  {
    var totalLength := TotalLength(names);
    buffer := new char[totalLength](_ => Nul);
    FillNameOptions(buffer, names);
  }

  /** The size computation: the sum of strlen, animsCount - 1 separators and the
      terminator. */
  method TotalLength(names: seq<string>) returns (totalLength: nat)
    requires |names| >= 1
    ensures totalLength == SumLengths(names) + |names|
  {
    var animsCount := |names|;
    totalLength := 0;
    for i := 0 to animsCount
      invariant totalLength == SumLengths(names[..i])
    {
      assert names[..i + 1][..i] == names[..i];
      totalLength := totalLength + |names[i]|;
    }
    assert names[..animsCount] == names;
    totalLength := totalLength + (animsCount - 1);
    totalLength := totalLength + 1;
  }

  /** strcpy of the first name, then strcat of ";" and each further name. */
  method FillNameOptions(buffer: array<char>, names: seq<string>)
    requires |names| >= 1
    requires forall i :: 0 <= i < |names| ==> IsCString(names[i])
    requires buffer.Length == SumLengths(names) + |names|
    modifies buffer
    ensures buffer[..] == Join(names) + [Nul]
  {
    var animsCount := |names|;
    JoinPrefixLength(names, 1);
    StrCpy(buffer, names[0]);
    assert [names[0]] == names[..1];
    for i := 1 to animsCount
      invariant Nul in buffer[..]
      invariant buffer[..StrLenOf(buffer[..])] == Join(names[..i])
      invariant StrLenOf(buffer[..]) == |Join(names[..i])|
    {
      JoinPrefixLength(names, i + 1);
      assert names[..i + 1][..i] == names[..i];
      AppendOption(buffer, names[i]);
    }
    assert names[..animsCount] == names;
    var n := StrLenOf(buffer[..]);
    assert n + 1 == buffer.Length;
    assert buffer[..] == buffer[..n] + [buffer[n]];
  }

  /** One turn of the loop: strcat of ";" and then of the next name. */
  method AppendOption(buffer: array<char>, name: string)
    requires Nul in buffer[..] && IsCString(name)
    requires StrLenOf(buffer[..]) + 1 + |name| < buffer.Length
    modifies buffer
    ensures Nul in buffer[..]
    ensures buffer[..StrLenOf(buffer[..])] == old(buffer[..StrLenOf(buffer[..])]) + ";" + name
    ensures StrLenOf(buffer[..]) == old(StrLenOf(buffer[..])) + 1 + |name|
    ensures buffer[old(StrLenOf(buffer[..])) + 1 + |name| + 1..] == old(buffer[StrLenOf(buffer[..]) + 1 + |name| + 1..])
  {
    StrCat(buffer, ";");
    StrCat(buffer, name);
  }

  /** The joined prefixes fit the buffer sized for all the names. */
  lemma {:induction false} JoinPrefixLength(names: seq<string>, k: nat)
    requires 1 <= k <= |names|
    ensures |Join(names[..k])| + (SumLengths(names) - SumLengths(names[..k])) + (|names| - k) == SumLengths(names) + |names| - 1
    ensures SumLengths(names[..k]) <= SumLengths(names)
    decreases |names| - k
  {
    if k < |names| {
      JoinPrefixLength(names, k + 1);
      assert names[..k + 1][..k] == names[..k];
    } else {
      assert names[..k] == names;
    }
  }

  /** What the drop-down offers after a model is loaded: the joined names, or the
      placeholder " " when the model has no animations. */
  function NameOptions(names: seq<string>): (options: string)
    requires forall i :: 0 <= i < |names| ==> IsCString(names[i])
    ensures |names| == 0 ==> options == " "
    ensures |names| >= 1 ==> |options| == SumLengths(names) + |names| - 1
  {
    if |names| == 0 then " " else Join(names)
  }

  /** Loading a model: the join runs only when there is at least one animation. */
  method LoadNameOptions(names: seq<string>) returns (options: string)
    requires forall i :: 0 <= i < |names| ==> IsCString(names[i])
    ensures options == NameOptions(names)
  {
    options := " ";
    if |names| > 0 {
      var buffer := BuildNameOptions(names);
      var n := StrLen(buffer);
      NulAfter(buffer[..], Join(names));
      options := buffer[..n];
    }
  }
}
