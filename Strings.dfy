/** The few operations of Go's strings package the client relies on, plus the
    character search the URL readers use. */
module Strings {
  import opened Results

  predicate HasPrefix(s: string, prefix: string) {
    |prefix| <= |s| && s[..|prefix|] == prefix
  }

  /** strings.TrimPrefix: s without one leading copy of prefix, or s itself. */
  function TrimPrefix(s: string, prefix: string): (r: string)
    ensures HasPrefix(s, prefix) ==> prefix + r == s
    ensures !HasPrefix(s, prefix) ==> r == s
  {
    if HasPrefix(s, prefix) then s[|prefix|..] else s
  }

  /** A channel name with at most one leading '#' removed. */
  function TrimHash(name: string): (r: string)
    ensures r == name || "#" + r == name
    ensures |name| > 0 && name[0] == '#' <==> "#" + r == name
  {
    TrimPrefix(name, "#")
  }

  /** Only one '#' goes: "##ops" becomes "#ops". */
  lemma TrimHashOnce(name: string)
    ensures TrimHash("##" + name) == "#" + name
  {
    assert HasPrefix("##" + name, "#");
    assert ("##" + name)[1..] == "#" + name;
  }

  /** The position of the first occurrence of c in s. */
  function IndexOf(s: string, c: char): (r: Option<nat>)
    ensures r.Some? ==> r.value < |s| && s[r.value] == c && c !in s[..r.value]
    ensures r.None? ==> c !in s
  {
    if s == [] then None
    else if s[0] == c then Some(0)
    else match IndexOf(s[1..], c)
      case None => None
      case Some(k) => assert s[..k + 1] == [s[0]] + s[1..][..k]; Some(k + 1)
  }

  /** Searching a joined string stops at the separator when the left part lacks it. */
  lemma IndexOfJoin(a: string, c: char, b: string)
    requires c !in a
    ensures IndexOf(a + [c] + b, c) == Some(|a|)
    ensures (a + [c] + b)[..|a|] == a && (a + [c] + b)[|a| + 1..] == b
  {
    var s := a + [c] + b;
    assert s[..|a|] == a;
    assert s[|a|] == c;
    assert s[|a| + 1..] == b;
  }

  /** s cut at the first c: the part before it and the part after it. */
  function SplitAt(s: string, c: char): (r: Option<(string, string)>)
    ensures r.Some? ==> c !in r.value.0 && s == r.value.0 + [c] + r.value.1
    ensures r.None? <==> c !in s
  {
    match IndexOf(s, c)
    case None => None
    case Some(i) => assert s == s[..i] + [c] + s[i + 1..]; Some((s[..i], s[i + 1..]))
  }

  /** Cutting a joined string at the separator gives back both parts when the left part lacks it. */
  lemma SplitAtJoin(a: string, c: char, b: string)
    requires c !in a
    ensures SplitAt(a + [c] + b, c) == Some((a, b))
  {
    IndexOfJoin(a, c, b);
  }
}
