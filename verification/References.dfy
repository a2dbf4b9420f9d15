/** The `namespace/name` strings kept in `status.pipelineRun` and in the owner annotation. */
module References {
  import opened Common

  const SEPARATOR := '/'

  /** `fmt.Sprintf("%s%c%s", namespace, types.Separator, name)`. */
  function Encode(n: NamespacedName): string {
    n.namespace + [SEPARATOR] + n.name
  }

  /** `strings.SplitN(s, "/", 2)`: everything before the first slash, and everything after it if there is one. */
  function SplitN(s: string): (parts: seq<string>)
    ensures SEPARATOR !in s ==> parts == [s]
    ensures SEPARATOR in s ==> |parts| == 2 && SEPARATOR !in parts[0] && s == parts[0] + [SEPARATOR] + parts[1]
  {
    if s == [] then [s]
    else if s[0] == SEPARATOR then [[], s[1..]]
    else
      var rest := SplitN(s[1..]);
      assert s == [s[0]] + s[1..];
      if |rest| == 1 then [[s[0]] + rest[0]] else [[s[0]] + rest[0], rest[1]]
  }

  /** The reference a string denotes; a string without a slash denotes none. */
  function Decode(s: string): Option<NamespacedName> {
    var parts := SplitN(s);
    if |parts| == 2 then Some(NamespacedName(parts[0], parts[1])) else None
  }

  lemma {:induction false} FirstSlashIsUnique(a: string, b: string, c: string, d: string)
    requires SEPARATOR !in a && SEPARATOR !in c
    requires a + [SEPARATOR] + b == c + [SEPARATOR] + d
    ensures a == c && b == d
  {
    var s := a + [SEPARATOR] + b;
    assert s[|a|] == SEPARATOR && s[|c|] == SEPARATOR;
    assert forall i :: 0 <= i < |a| ==> s[i] == a[i];
    assert forall i :: 0 <= i < |c| ==> s[i] == c[i];
    assert a == s[..|a|] && c == s[..|c|];
    assert b == s[|a| + 1..] && d == s[|c| + 1..];
  }

  /** Decoding inverts encoding exactly when the namespace holds no slash, which the API server guarantees. */
  lemma RoundTrip(n: NamespacedName)
    ensures Decode(Encode(n)) == Some(n) <==> SEPARATOR !in n.namespace
    ensures Encode(n) == n.namespace + "/" + n.name && Encode(n) != ""
  {
    var s := Encode(n);
    assert s[|n.namespace|] == SEPARATOR;
    var parts := SplitN(s);
    if SEPARATOR !in n.namespace {
      FirstSlashIsUnique(n.namespace, n.name, parts[0], parts[1]);
    }
  }

  /** Two references with valid namespaces and the same string are the same reference. */
  lemma EncodeIsInjective(m: NamespacedName, n: NamespacedName)
    requires SEPARATOR !in m.namespace && SEPARATOR !in n.namespace
    requires Encode(m) == Encode(n)
    ensures m == n
  {
    RoundTrip(m);
    RoundTrip(n);
  }
}
