/**
 * The few JavaScript string primitives the wizard and the report submitter rely on:
 * truthiness of a `string | null`, `String.prototype.includes`, `indexOf` of one
 * character and `split` on a one-character separator.
 */
module JsString {
  import opened Wrappers

  /** A `string | null` is truthy when it is present and not the empty string. */
  predicate Truthy(s: Option<string>) {
    s.Some? && s.value != ""
  }

  /** `s.startsWith(prefix)`. */
  predicate StartsWith(s: string, prefix: string) {
    |prefix| <= |s| && s[..|prefix|] == prefix
  }

  /** `s.includes(search)`: `search` occurs in `s` at some position (the empty string occurs everywhere). */
  predicate Includes(s: string, search: string)
    decreases |s|
  {
    StartsWith(s, search) || (|s| > 0 && Includes(s[1..], search))
  }

  /** An occurrence of `search` at position `k` is found by `Includes`. */
  lemma {:induction false} IncludesAt(s: string, search: string, k: nat)
    requires k + |search| <= |s| && s[k..k + |search|] == search
    ensures Includes(s, search)
    decreases k
  {
    if k > 0 {
      assert s[1..][k - 1..k - 1 + |search|] == s[k..k + |search|];
      IncludesAt(s[1..], search, k - 1);
    }
  }

  /** A text includes only search texts no longer than itself. */
  lemma {:induction false} IncludesLength(s: string, search: string)
    requires Includes(s, search)
    ensures |search| <= |s|
    decreases |s|
  {
    if !StartsWith(s, search) {
      IncludesLength(s[1..], search);
    }
  }

  /** A string that lacks the first character of `search` does not include `search`. */
  lemma {:induction false} NotIncludedWithoutFirstChar(s: string, search: string)
    requires |search| > 0 && search[0] !in s
    ensures !Includes(s, search)
    decreases |s|
  {
    if |s| > 0 {
      assert s[0] != search[0];
      assert search[0] !in s[1..];
      NotIncludedWithoutFirstChar(s[1..], search);
    }
  }

  /** `s.indexOf(c)`, with JavaScript's -1 written as `None`: the first position of `c` in `s`. */
  function IndexOf(s: string, c: char): (r: Option<nat>)
    ensures r.None? <==> c !in s
    ensures r.Some? ==> r.value < |s| && s[r.value] == c && c !in s[..r.value]
    decreases |s|
  {
    if |s| == 0 then None
    else if s[0] == c then Some(0)
    else
      match IndexOf(s[1..], c)
      case None => None
      case Some(i) =>
        assert s[..i + 1] == [s[0]] + s[1..][..i];
        Some(i + 1)
  }

  /** `s.split(sep)` for a one-character separator: the text between consecutive separators. */
  function Split(s: string, sep: char): (parts: seq<string>)
    ensures |parts| >= 1
    ensures forall i :: 0 <= i < |parts| ==> sep !in parts[i]
    ensures |parts| == 1 <==> sep !in s
    decreases |s|
  {
    match IndexOf(s, sep)
    case None => [s]
    case Some(i) => [s[..i]] + Split(s[i + 1..], sep)
  }

  /** `parts.join(sep)`: the inverse of `Split`. */
  function Join(parts: seq<string>, sep: char): string
    requires |parts| >= 1
  {
    if |parts| == 1 then parts[0] else parts[0] + [sep] + Join(parts[1..], sep)
  }

  /** The first position of `c` in `s` is the only position that `IndexOf` can report. */
  lemma IndexOfFirst(s: string, c: char, k: nat)
    requires k < |s| && s[k] == c && c !in s[..k]
    ensures IndexOf(s, c) == Some(k)
  {
  }

  /** A string is the text before position `i`, the character there and the text after. */
  lemma Around(s: string, i: nat)
    requires i < |s|
    ensures s == s[..i] + [s[i]] + s[i + 1..]
  {
  }

  /** Splitting and joining again gives back the original string. */
  lemma {:induction false} JoinSplit(s: string, sep: char)
    ensures Join(Split(s, sep), sep) == s
    decreases |s|
  {
    var idx := IndexOf(s, sep);
    if idx.Some? {
      var i := idx.value;
      var head, tail := s[..i], s[i + 1..];
      var rest := Split(tail, sep);
      assert |rest| >= 1;
      var parts := [head] + rest;
      assert Split(s, sep) == parts;
      assert parts[0] == head && parts[1..] == rest;
      JoinSplit(tail, sep);
      Around(s, i);
      assert Join(parts, sep) == head + [sep] + Join(rest, sep);
    }
  }

  /** Joining pieces free of the separator and then splitting gives back the pieces. */
  lemma {:induction false} SplitJoin(parts: seq<string>, sep: char)
    requires |parts| >= 1
    requires forall i :: 0 <= i < |parts| ==> sep !in parts[i]
    ensures Split(Join(parts, sep), sep) == parts
    decreases |parts|
  {
    if |parts| > 1 {
      var rest := Join(parts[1..], sep);
      var s := parts[0] + [sep] + rest;
      assert s[..|parts[0]|] == parts[0];
      IndexOfFirst(s, sep, |parts[0]|);
      assert s[|parts[0]| + 1..] == rest;
      SplitJoin(parts[1..], sep);
      assert parts == [parts[0]] + parts[1..];
    }
  }
}
