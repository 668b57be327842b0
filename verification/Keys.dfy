/** Work queue keys: cache.MetaNamespaceKeyFunc and cache.SplitMetaNamespaceKey. */
module Keys {
  import opened Basics

  function MetaNamespaceKey(namespace: string, name: string): string {
    if namespace == "" then name else namespace + "/" + name
  }

  /** strings.Split with the separator '/': never empty. */
  function Split(s: string): (parts: seq<string>)
    ensures |parts| > 0
  {
    if s == "" then [""]
    else if s[0] == '/' then [""] + Split(s[1..])
    else var rest := Split(s[1..]); [[s[0]] + rest[0]] + rest[1..]
  }

  /** Namespace and name; None for a key with more than one slash. */
  function SplitMetaNamespaceKey(key: string): Option<(string, string)> {
    var parts := Split(key);
    if |parts| == 1 then Some(("", parts[0]))
    else if |parts| == 2 then Some((parts[0], parts[1]))
    else None
  }

  lemma {:induction false} SplitPlain(s: string)
    requires '/' !in s
    ensures Split(s) == [s]
  {
    if s != "" {
      SplitPlain(s[1..]);
      assert [s[0]] + s[1..] == s;
    }
  }

  lemma {:induction false} SplitOnce(a: string, b: string)
    requires '/' !in a && '/' !in b
    ensures Split(a + "/" + b) == [a, b]
  {
    if a == "" {
      SplitPlain(b);
      assert ("/" + b)[1..] == b;
    } else {
      SplitOnce(a[1..], b);
      assert (a + "/" + b)[1..] == a[1..] + "/" + b;
      assert [a[0]] + a[1..] == a;
    }
  }

  lemma {:induction false} SplitAtSlash(a: string, b: string)
    ensures |Split(a + "/" + b)| == |Split(a)| + |Split(b)|
    decreases |a|
  {
    if a == "" {
      assert (("" + "/") + b)[1..] == b;
    } else {
      SplitAtSlash(a[1..], b);
      assert (a + "/" + b)[1..] == a[1..] + "/" + b;
    }
  }

  /** A key with two slashes, or more, is malformed. */
  lemma TwoSlashesAreMalformed(a: string, b: string, c: string)
    ensures SplitMetaNamespaceKey(a + "/" + b + "/" + c) == None
  {
    SplitAtSlash(a + "/" + b, c);
    SplitAtSlash(a, b);
  }

  /** What was enqueued is what the worker looks up. */
  lemma KeyRoundTrip(namespace: string, name: string)
    requires '/' !in namespace && '/' !in name
    ensures SplitMetaNamespaceKey(MetaNamespaceKey(namespace, name)) == Some((namespace, name))
  {
    if namespace == "" {
      SplitPlain(name);
    } else {
      SplitOnce(namespace, name);
    }
  }
}
