/**
 * Minecraft resource locations ("namespace:path"): the parsing of
 * `new ResourceLocation(String)` and the check `isValidResourceLocation`.
 */
module ResourceLocations {
  datatype ResourceLocation = ResourceLocation(namespace: string, path: string)

  const DEFAULT_NAMESPACE: string := "minecraft"
  const SEPARATOR: char := ':'

  predicate ValidNamespaceChar(c: char) {
    c == '_' || c == '-' || ('a' <= c <= 'z') || ('0' <= c <= '9') || c == '.'
  }

  predicate ValidPathChar(c: char) {
    ValidNamespaceChar(c) || c == '/'
  }

  predicate ValidNamespace(s: string) {
    forall i :: 0 <= i < |s| ==> ValidNamespaceChar(s[i])
  }

  predicate ValidPath(s: string) {
    forall i :: 0 <= i < |s| ==> ValidPathChar(s[i])
  }

  /** `String.indexOf`: the position of the first `c` in `s`, or -1. */
  function IndexOf(s: string, c: char): (i: int)
    ensures -1 <= i < |s|
    ensures i == -1 <==> c !in s
    ensures i >= 0 ==> s[i] == c && c !in s[..i]
  {
    if |s| == 0 then -1
    else if s[0] == c then 0
    else
      var j := IndexOf(s[1..], c);
      if j == -1 then -1 else assert s[..j + 1] == [s[0]] + s[1..][..j]; j + 1
  }

  /** `decompose(location, ':')`: namespace and path, the namespace defaulting to "minecraft". */
  function Decompose(s: string): (string, string) {
    var i := IndexOf(s, SEPARATOR);
    if i < 0 then (DEFAULT_NAMESPACE, s)
    else (if i >= 1 then s[..i] else DEFAULT_NAMESPACE, s[i + 1..])
  }

  /** `isValidResourceLocation`. */
  predicate IsValidResourceLocation(s: string) {
    var p := Decompose(s);
    ValidNamespace(if |p.0| == 0 then DEFAULT_NAMESPACE else p.0) && ValidPath(p.1)
  }

  /** `new ResourceLocation(s)` for a string that passes the check: a valid location. */
  function Parse(s: string): (rl: ResourceLocation)
    requires IsValidResourceLocation(s)
    ensures ValidLocation(rl)
    ensures SEPARATOR !in s ==> rl == ResourceLocation(DEFAULT_NAMESPACE, s)
  {
    var p := Decompose(s);
    ResourceLocation(p.0, p.1)
  }

  predicate ValidLocation(rl: ResourceLocation) {
    |rl.namespace| > 0 && ValidNamespace(rl.namespace) && ValidPath(rl.path)
  }

  /** `toString()`. */
  function ToString(rl: ResourceLocation): string {
    rl.namespace + [SEPARATOR] + rl.path
  }

  /** `withPrefix(prefix)`: the same namespace, the prefix put before the path. */
  function WithPrefix(rl: ResourceLocation, prefix: string): (r: ResourceLocation)
    ensures r.namespace == rl.namespace && r.path == prefix + rl.path
    ensures ValidLocation(rl) && ValidPath(prefix) ==> ValidLocation(r)
  {
    ResourceLocation(rl.namespace, prefix + rl.path)
  }

  /** Printing a valid location and parsing the text gives the location back. */
  lemma {:induction false} ParseToString(rl: ResourceLocation)
    requires ValidLocation(rl)
    ensures IsValidResourceLocation(ToString(rl))
    ensures Parse(ToString(rl)) == rl
  {
    var s := ToString(rl);
    var n := |rl.namespace|;
    assert s[n] == SEPARATOR;
    assert SEPARATOR !in rl.namespace by {
      forall i | 0 <= i < n ensures rl.namespace[i] != SEPARATOR {
        assert ValidNamespaceChar(rl.namespace[i]);
      }
    }
    assert s[..n] == rl.namespace;
    assert IndexOf(s, SEPARATOR) == n;
    assert s[n + 1..] == rl.path;
  }
}
