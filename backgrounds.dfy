/**
 * Background images: which names of a folder listing count as images, the paths they are
 * kept under, and the cyclic index that walks through them.
 */
module Backgrounds {

  /** str.lower() on the ASCII letters; every other character is kept. */
  function LowerChar(c: char): char {
    if 'A' <= c <= 'Z' then (c as int + 32) as char else c
  }

  function Lower(s: string): (r: string)
    ensures |r| == |s| && forall i :: 0 <= i < |s| ==> r[i] == LowerChar(s[i])
  {
    if s == [] then [] else [LowerChar(s[0])] + Lower(s[1..])
  }

  lemma {:induction false} LowerIdempotent(s: string)
    ensures Lower(Lower(s)) == Lower(s)
  {
    forall i | 0 <= i < |s| ensures Lower(Lower(s))[i] == Lower(s)[i] {
      assert LowerChar(LowerChar(s[i])) == LowerChar(s[i]);
    }
  }

  predicate EndsWith(s: string, suffix: string) {
    |suffix| <= |s| && s[|s| - |suffix|..] == suffix
  }

  /** f.lower().endswith(('.png', '.jpg', '.jpeg')). */
  predicate IsImageName(f: string) {
    var l := Lower(f);
    EndsWith(l, ".png") || EndsWith(l, ".jpg") || EndsWith(l, ".jpeg")
  }

  /** Whether a name is an image does not depend on the case of its letters. */
  lemma ImageNameIgnoresCase(f: string)
    ensures IsImageName(Lower(f)) <==> IsImageName(f)
  {
    LowerIdempotent(f);
  }

  /** Lower-casing works character by character, so it splits over concatenation. */
  lemma LowerAppend(a: string, b: string)
    ensures Lower(a + b) == Lower(a) + Lower(b)
  {
    assert forall i :: 0 <= i < |a + b| ==> Lower(a + b)[i] == (Lower(a) + Lower(b))[i];
  }

  /** A string ending in a non-empty suffix ends in the suffix's last character. */
  lemma EndsWithLast(s: string, suffix: string)
    requires EndsWith(s, suffix) && suffix != []
    ensures s[|s| - 1] == suffix[|suffix| - 1]
  {
    assert s[|s| - |suffix|..][|suffix| - 1] == s[|s| - 1];
  }

  /** Any name ending in an extension that lower-cases to one of the three is an image name. */
  lemma ImageByExtension(stem: string, ext: string)
    requires Lower(ext) == ".png" || Lower(ext) == ".jpg" || Lower(ext) == ".jpeg"
    ensures IsImageName(stem + ext)
  {
    LowerAppend(stem, ext);
    var l := Lower(stem + ext);
    assert l[|l| - |ext|..] == Lower(ext);
  }

  /** An upper-case or mixed-case extension is accepted like a lower-case one. */
  lemma UpperExtensions(stem: string)
    ensures IsImageName(stem + ".PNG") && IsImageName(stem + ".Jpeg")
  {
    assert Lower(".PNG") == ".png";
    ImageByExtension(stem, ".PNG");
    assert Lower(".Jpeg") == ".jpeg";
    ImageByExtension(stem, ".Jpeg");
  }

  /** A name whose last character is not a g is not an image name, whatever comes before. */
  lemma NotImageUnlessG(f: string)
    requires f == [] || LowerChar(f[|f| - 1]) != 'g'
    ensures !IsImageName(f)
  {
    var l := Lower(f);
    if EndsWith(l, ".png") { EndsWithLast(l, ".png"); }
    if EndsWith(l, ".jpg") { EndsWithLast(l, ".jpg"); }
    if EndsWith(l, ".jpeg") { EndsWithLast(l, ".jpeg"); }
  }

  /** The image names of a listing, in listing order. */
  function ImageNames(names: seq<string>): seq<string> {
    if names == [] then []
    else (if IsImageName(names[0]) then [names[0]] else []) + ImageNames(names[1..])
  }

  /** A name is kept exactly when it is listed and is an image name. */
  lemma {:induction false} ImageNamesMember(names: seq<string>, f: string)
    ensures f in ImageNames(names) <==> f in names && IsImageName(f)
    decreases names
  {
    if names != [] {
      ImageNamesMember(names[1..], f);
      assert names == [names[0]] + names[1..];
    }
  }

  /** Filtering a listing split in two filters each part, in order. */
  lemma {:induction false} ImageNamesAppend(a: seq<string>, b: seq<string>)
    ensures ImageNames(a + b) == ImageNames(a) + ImageNames(b)
    decreases a
  {
    if a == [] {
      assert a + b == b;
    } else {
      assert (a + b)[1..] == a[1..] + b;
      ImageNamesAppend(a[1..], b);
    }
  }

  /** Filtering keeps no more names than the listing has, and filtering twice is filtering once. */
  lemma {:induction false} ImageNamesShrinks(names: seq<string>)
    ensures |ImageNames(names)| <= |names|
    ensures ImageNames(ImageNames(names)) == ImageNames(names)
    decreases names
  {
    if names != [] {
      ImageNamesShrinks(names[1..]);
      var head := if IsImageName(names[0]) then [names[0]] else [];
      ImageNamesAppend(head, ImageNames(names[1..]));
      if IsImageName(names[0]) {
        assert [names[0]][1..] == [];
      }
    }
  }

  /** os.path.join(folder, name) for a name with no slash in it, as a directory listing gives. */
  function JoinName(folder: string, name: string): string {
    if folder == [] || folder[|folder| - 1] == '/' then folder + name else folder + "/" + name
  }

  /** Lower-casing the tail of a string is taking the tail of its lower-cased form. */
  lemma LowerTail(p: string, k: nat)
    requires k <= |p|
    ensures Lower(p)[k..] == Lower(p[k..])
  {
    assert forall i :: 0 <= i < |p| - k ==> Lower(p)[k..][i] == Lower(p[k..])[i];
  }

  /** A name ending in an image name's tail is lower-cased to a name with the same tail. */
  lemma LowerKeepsSuffix(p: string, name: string, suffix: string)
    requires EndsWith(p, name) && EndsWith(Lower(name), suffix)
    ensures EndsWith(Lower(p), suffix)
  {
    var m := |p| - |name|;
    LowerTail(p, m);
    var lp, ln := Lower(p), Lower(name);
    assert lp[m..] == ln;
    assert lp[|lp| - |suffix|..] == lp[m..][|ln| - |suffix|..];
  }

  /** The joined path ends with the name, so an image name gives an image path. */
  lemma JoinNameKeepsName(folder: string, name: string)
    ensures EndsWith(JoinName(folder, name), name)
    ensures IsImageName(name) ==> IsImageName(JoinName(folder, name))
  {
    var p := JoinName(folder, name);
    assert p[|p| - |name|..] == name;
    if EndsWith(Lower(name), ".png") { LowerKeepsSuffix(p, name, ".png"); }
    if EndsWith(Lower(name), ".jpg") { LowerKeepsSuffix(p, name, ".jpg"); }
    if EndsWith(Lower(name), ".jpeg") { LowerKeepsSuffix(p, name, ".jpeg"); }
  }

  /** The listed names joined to their folder. */
  function InFolder(folder: string, names: seq<string>): (r: seq<string>)
    ensures |r| == |names| && forall i :: 0 <= i < |names| ==> r[i] == JoinName(folder, names[i])
  {
    if names == [] then [] else [JoinName(folder, names[0])] + InFolder(folder, names[1..])
  }

  /** The paths load_backgrounds appends for one listing of the folder. */
  function ImagePaths(folder: string, listing: seq<string>): seq<string> {
    InFolder(folder, ImageNames(listing))
  }

  /** Adding one name to the listing adds its path at the end exactly when it is an image name. */
  lemma ImagePathsSnoc(folder: string, listing: seq<string>, f: string)
    ensures ImagePaths(folder, listing + [f]) ==
      ImagePaths(folder, listing) + (if IsImageName(f) then [JoinName(folder, f)] else [])
  {
    ImageNamesAppend(listing, [f]);
    assert [f][1..] == [];
    assert ImageNames([f]) == (if IsImageName(f) then [f] else []) + [];
    var a, b := ImageNames(listing), ImageNames([f]);
    assert InFolder(folder, a + b) == InFolder(folder, a) + InFolder(folder, b);
  }

  /** Every appended path is an image path, and every image name of the listing gives one. */
  lemma ImagePathsComplete(folder: string, listing: seq<string>, f: string)
    ensures f in listing && IsImageName(f) ==> JoinName(folder, f) in ImagePaths(folder, listing)
    ensures forall p :: p in ImagePaths(folder, listing) ==> IsImageName(p)
  {
    ImageNamesMember(listing, f);
    var names := ImageNames(listing);
    if f in names {
      var i :| 0 <= i < |names| && names[i] == f;
      assert ImagePaths(folder, listing)[i] == JoinName(folder, f);
    }
    forall p | p in ImagePaths(folder, listing) ensures IsImageName(p) {
      var i :| 0 <= i < |names| && ImagePaths(folder, listing)[i] == p;
      ImageNamesMember(listing, names[i]);
      JoinNameKeepsName(folder, names[i]);
    }
  }

  // The rotation index.

  /** rotate_background's index update: unchanged on an empty list, otherwise one step round. */
  function NextIndex(i: int, n: nat): (j: int)
    ensures n == 0 ==> j == i
    ensures n > 0 ==> 0 <= j < n
    ensures n > 0 && 0 <= i < n - 1 ==> j == i + 1
    ensures n > 0 && i == n - 1 ==> j == 0
  {
    if n == 0 then i else (i + 1) % n
  }

  /** The index after k rotations. */
  function Rotated(i: int, n: nat, k: nat): int {
    if k == 0 then i else NextIndex(Rotated(i, n, k - 1), n)
  }

  /** Below the end of the list each rotation moves the index one place on. */
  lemma {:induction false} RotatedSteps(i: int, n: nat, k: nat)
    requires 0 <= i && i + k < n
    ensures Rotated(i, n, k) == i + k
  {
    if k > 0 {
      RotatedSteps(i, n, k - 1);
    }
  }

  /** Rotating a + b times is rotating a times and then b times. */
  lemma {:induction false} RotatedAdd(i: int, n: nat, a: nat, b: nat)
    ensures Rotated(i, n, a + b) == Rotated(Rotated(i, n, a), n, b)
  {
    if b > 0 {
      RotatedAdd(i, n, a, b - 1);
    }
  }

  /** n rotations of an n-image list bring every index in range back to where it was. */
  lemma FullCircle(i: int, n: nat)
    requires 0 <= i < n
    ensures Rotated(i, n, n) == i
    ensures forall k :: 0 < k < n ==> Rotated(i, n, k) != i
  {
    RotatedSteps(i, n, n - 1 - i);
    RotatedAdd(i, n, n - 1 - i, 1);
    RotatedAdd(i, n, n - i, i);
    RotatedSteps(0, n, i);
    forall k | 0 < k < n ensures Rotated(i, n, k) != i {
      if k < n - i {
        RotatedSteps(i, n, k);
      } else {
        RotatedAdd(i, n, n - i, k - (n - i));
        RotatedSteps(0, n, k - (n - i));
      }
    }
  }
}
