/** Files picked by the user and where they are put in the object store:
    the extension rule shared by the video, thumbnail and avatar uploads,
    the storage paths built from a fresh name, and public object URLs. */
module Storage {

  /** A file chosen in a file input; only its name and size are read. */
  datatype File = File(name: string, size: nat)

  /** An object in the store: a bucket and a path inside it. */
  datatype ObjectKey = ObjectKey(bucket: string, path: string)

  /** The extension as `name.split(".").pop()` computes it. */
  function Extension(name: string): string
    decreases |name|
  {
    if name == [] then []
    else if name[|name| - 1] == '.' then []
    else Extension(name[..|name| - 1]) + [name[|name| - 1]]
  }

  /** The extension is everything after the last '.' of the name, or the
      whole name when it has no '.'. */
  lemma {:induction false} ExtensionShape(name: string)
    ensures var e := Extension(name);
      && '.' !in e
      && |e| <= |name| && e == name[|name| - |e|..]
      && ('.' !in name ==> e == name)
      && ('.' in name ==> |e| < |name| && name[|name| - |e| - 1] == '.')
    decreases |name|
  {
    if name != [] && name[|name| - 1] != '.' {
      var init := name[..|name| - 1];
      assert name == init + [name[|name| - 1]];
      ExtensionShape(init);
    }
  }

  /** Whatever precedes the last dot, the extension is what follows it. */
  lemma {:induction false} ExtensionAfterLastDot(stem: string, ext: string)
    requires '.' !in ext
    ensures Extension(stem + "." + ext) == ext
  {
    var name := stem + "." + ext;
    var e := Extension(name);
    ExtensionShape(name);
    assert name[|stem|] == '.';
    assert name[|stem| + 1..] == ext;
  }

  /** A storage path: a folder prefix, a fresh name, '.', and the extension
      of the original file name. */
  function ObjectPath(folder: string, freshName: string, fileName: string): string {
    folder + freshName + "." + Extension(fileName)
  }

  /** A stored object keeps the extension of the file it came from. */
  lemma ObjectPathKeepsExtension(folder: string, freshName: string, fileName: string)
    ensures Extension(ObjectPath(folder, freshName, fileName)) == Extension(fileName)
  {
    ExtensionShape(fileName);
    ExtensionAfterLastDot(folder + freshName, Extension(fileName));
  }

  /** The first dot splits a dotted string uniquely when the part before it
      has no dot. */
  lemma SplitAtFirstDot(a: string, b: string, c: string, d: string)
    requires '.' !in a && '.' !in c
    requires a + "." + b == c + "." + d
    ensures a == c && b == d
  {
    var s := a + "." + b;
    assert s[|a|] == '.' && s[|c|] == '.';
    assert forall i :: 0 <= i < |a| ==> s[i] == a[i];
    assert forall i :: 0 <= i < |c| ==> s[i] == c[i];
    assert |a| == |c|;
    assert a == s[..|a|] == c;
    assert b == s[|a| + 1..] == d;
  }

  /** Two paths in one folder are the same only when their fresh names are
      the same: distinct fresh names never overwrite each other's objects. */
  lemma ObjectPathInjective(folder: string, u1: string, n1: string, u2: string, n2: string)
    requires '.' !in folder && '.' !in u1 && '.' !in u2
    requires ObjectPath(folder, u1, n1) == ObjectPath(folder, u2, n2)
    ensures u1 == u2 && Extension(n1) == Extension(n2)
  {
    SplitAtFirstDot(folder + u1, Extension(n1), folder + u2, Extension(n2));
    assert u1 == (folder + u1)[|folder|..];
    assert u2 == (folder + u2)[|folder|..];
  }

  predicate IsHexDigit(c: char) {
    '0' <= c <= '9' || 'a' <= c <= 'f'
  }

  /** The shape of a name from `crypto.randomUUID()`: 36 characters, dashes
      at 8, 13, 18 and 23, lower-case hex digits elsewhere. */
  predicate IsUuid(u: string) {
    |u| == 36 &&
    forall i :: 0 <= i < |u| ==>
      if i == 8 || i == 13 || i == 18 || i == 23 then u[i] == '-' else IsHexDigit(u[i])
  }

  /** A UUID has neither a dot nor a slash, so it can neither end the stem
      of a path early nor open a folder. */
  lemma UuidHasNoSeparators(u: string)
    requires IsUuid(u)
    ensures '.' !in u && '/' !in u
  {
  }

  /** The URL `getPublicUrl` gives an object, relative to the project URL. */
  const PublicPrefix := "/storage/v1/object/public/"

  function PublicUrl(key: ObjectKey): string {
    PublicPrefix + key.bucket + "/" + key.path
  }

  /** Distinct objects of one bucket have distinct public URLs. */
  lemma PublicUrlInjective(bucket: string, p1: string, p2: string)
    requires PublicUrl(ObjectKey(bucket, p1)) == PublicUrl(ObjectKey(bucket, p2))
    ensures p1 == p2
  {
    var head := PublicPrefix + bucket + "/";
    assert PublicUrl(ObjectKey(bucket, p1)) == head + p1;
    assert PublicUrl(ObjectKey(bucket, p2)) == head + p2;
    assert p1 == (head + p1)[|head|..];
    assert p2 == (head + p2)[|head|..];
  }
}
