/**
 * `list_pairs(root, split)`: the real samples of a split, i.e. the images
 * that have a label file with the same stem, sorted by path.
 */
module DatasetIndex {
  import opened Ordering

  /** A file as a directory glob lists it: its stem and its path. */
  datatype File = File(stem: string, path: string)

  function PathOf(f: File): string { f.path }

  /** Image `i` is the first in listing order with its stem. */
  predicate IsFirstOfStem(images: seq<File>, i: int)
  {
    0 <= i < |images| && forall j :: 0 <= j < i ==> images[j].stem != images[i].stem
  }

  /**
   * The `imgs` dictionary that `imgs.setdefault(p.stem, p)` builds over the
   * image listing, in listing order.
   */
  function FirstByStem(images: seq<File>): map<string, string>
  {
    if images == [] then map[]
    else
      var n := |images| - 1;
      var m := FirstByStem(images[..n]);
      if images[n].stem in m then m else m[images[n].stem := images[n].path]
  }

  /**
   * `imgs` has one key per stem in the listing, and maps it to the path of
   * the first image listed with that stem.
   */
  lemma FirstByStemSpec(images: seq<File>)
    ensures forall k :: k in FirstByStem(images) <==>
      exists i :: 0 <= i < |images| && images[i].stem == k
    ensures forall i :: IsFirstOfStem(images, i) ==>
      FirstByStem(images)[images[i].stem] == images[i].path
    ensures forall k :: k in FirstByStem(images) ==>
      exists i :: IsFirstOfStem(images, i) && images[i].stem == k
        && FirstByStem(images)[k] == images[i].path
  {
    FirstByStemKeys(images);
    FirstByStemFirst(images);
    FirstByStemWitness(images);
  }

  /** `imgs` has a key for exactly the stems in the listing. */
  lemma {:induction false} FirstByStemKeys(images: seq<File>)
    ensures forall k :: k in FirstByStem(images) <==>
      exists i :: 0 <= i < |images| && images[i].stem == k
  {
    if images != [] {
      var n := |images| - 1;
      var prefix := images[..n];
      FirstByStemKeys(prefix);
      assert forall i :: 0 <= i < n ==> prefix[i] == images[i];
    }
  }

  /** The first image listed with a stem is the one `imgs` keeps for it. */
  lemma {:induction false} FirstByStemFirst(images: seq<File>)
    ensures forall i :: IsFirstOfStem(images, i) ==>
      images[i].stem in FirstByStem(images) && FirstByStem(images)[images[i].stem] == images[i].path
  {
    if images != [] {
      var n := |images| - 1;
      var prefix, f := images[..n], images[n];
      var prev, m := FirstByStem(prefix), FirstByStem(images);
      FirstByStemFirst(prefix);
      FirstByStemKeys(prefix);
      FirstByStemKeys(images);
      assert forall i :: 0 <= i < n ==> prefix[i] == images[i];
      forall i | IsFirstOfStem(images, i) ensures images[i].stem in m && m[images[i].stem] == images[i].path {
        if i < n {
          assert IsFirstOfStem(prefix, i);
        } else {
          assert f.stem !in prev;
        }
      }
    }
  }

  /** Every value of `imgs` is the path of the first image with its key as stem. */
  lemma {:induction false} FirstByStemWitness(images: seq<File>)
    ensures forall k :: k in FirstByStem(images) ==>
      exists i :: IsFirstOfStem(images, i) && images[i].stem == k
        && FirstByStem(images)[k] == images[i].path
  {
    if images != [] {
      var n := |images| - 1;
      var prefix, f := images[..n], images[n];
      var prev, m := FirstByStem(prefix), FirstByStem(images);
      FirstByStemWitness(prefix);
      FirstByStemKeys(prefix);
      assert forall i :: 0 <= i < n ==> prefix[i] == images[i];
      forall k | k in m
        ensures exists i :: IsFirstOfStem(images, i) && images[i].stem == k && m[k] == images[i].path
      {
        if k in prev {
          var i :| IsFirstOfStem(prefix, i) && prefix[i].stem == k && prev[k] == prefix[i].path;
          assert IsFirstOfStem(images, i);
        } else {
          assert IsFirstOfStem(images, n);
        }
      }
    }
  }

  /** The second loop: label by label, the image that shares its stem. */
  function Matched(labels: seq<File>, imgs: map<string, string>): (r: seq<string>)
    ensures |r| <= |labels|
  {
    if labels == [] then []
    else
      var n := |labels| - 1;
      var l := labels[n];
      Matched(labels[..n], imgs) + (if l.stem in imgs then [imgs[l.stem]] else [])
  }

  /** A path is matched exactly when some label's stem maps to it. */
  lemma {:induction false} MatchedMembers(labels: seq<File>, imgs: map<string, string>)
    ensures forall p :: p in Matched(labels, imgs) <==>
      exists l :: l in labels && l.stem in imgs && imgs[l.stem] == p
  {
    if labels != [] {
      var n := |labels| - 1;
      MatchedMembers(labels[..n], imgs);
      assert forall x :: x in labels <==> x in labels[..n] || x == labels[n];
    }
  }

  /** What `list_pairs` returns, as a function of the two listings. */
  function PairedImages(images: seq<File>, labels: seq<File>): seq<string>
  {
    SortPaths(Matched(SortBy(labels, PathOf), FirstByStem(images)))
  }

  /**
   * A path is listed exactly when it is the first image with the stem of
   * some label file.
   */
  lemma PairedImagesMembers(images: seq<File>, labels: seq<File>)
    ensures forall p :: p in PairedImages(images, labels) <==>
      exists l, i :: l in labels && IsFirstOfStem(images, i) && images[i].stem == l.stem
        && images[i].path == p
  {
    var imgs := FirstByStem(images);
    var sortedLabels := SortBy(labels, PathOf);
    var found := Matched(sortedLabels, imgs);
    var pairs := PairedImages(images, labels);
    FirstByStemSpec(images);
    MatchedMembers(sortedLabels, imgs);
    SortBySpec(labels, PathOf);
    SortPathsSpec(found);
    forall p ensures p in pairs <==> p in found {
      assert p in pairs <==> p in multiset(pairs);
      assert p in found <==> p in multiset(found);
    }
    forall l ensures l in labels <==> l in sortedLabels {
      assert l in labels <==> l in multiset(labels);
      assert l in sortedLabels <==> l in multiset(sortedLabels);
    }
  }

  /** The result of `list_pairs` is sorted and has at most one entry per label. */
  lemma PairedImagesShape(images: seq<File>, labels: seq<File>)
    ensures SortedBy(PairedImages(images, labels), Identity)
    ensures |PairedImages(images, labels)| <= |labels|
  {
    var found := Matched(SortBy(labels, PathOf), FirstByStem(images));
    SortPathsSpec(found);
  }

  ghost predicate NoDuplicates<T>(s: seq<T>)
  {
    forall i, j :: 0 <= i < j < |s| ==> s[i] != s[j]
  }

  lemma {:induction false} NoDuplicatesCounts<T>(s: seq<T>)
    ensures NoDuplicates(s) <==> forall x :: multiset(s)[x] <= 1
  {
    if s != [] {
      var n := |s| - 1;
      NoDuplicatesCounts(s[..n]);
      assert s == s[..n] + [s[n]];
      if NoDuplicates(s) {
        assert s[n] !in s[..n];
      } else {
        var i, j :| 0 <= i < j < |s| && s[i] == s[j];
        assert s == s[..j] + s[j..];
        assert s[i] in multiset(s[..j]) && s[j] in multiset(s[j..]);
        assert multiset(s)[s[i]] == multiset(s[..j])[s[i]] + multiset(s[j..])[s[i]];
      }
    }
  }

  lemma {:induction false} MatchedNoDuplicates(labels: seq<File>, imgs: map<string, string>)
    requires NoDuplicates(labels)
    requires forall a, b :: a in labels && b in labels && a.stem == b.stem ==> a == b
    requires forall k1, k2 :: k1 in imgs && k2 in imgs && imgs[k1] == imgs[k2] ==> k1 == k2
    ensures NoDuplicates(Matched(labels, imgs))
  {
    if labels != [] {
      var n := |labels| - 1;
      var l := labels[n];
      MatchedNoDuplicates(labels[..n], imgs);
      MatchedMembers(labels[..n], imgs);
      var prev := Matched(labels[..n], imgs);
      if l.stem in imgs {
        forall l' | l' in labels[..n] && l'.stem in imgs ensures imgs[l'.stem] != imgs[l.stem] {
          var j :| 0 <= j < n && labels[j] == l';
        }
        var r := prev + [imgs[l.stem]];
        forall i, j | 0 <= i < j < |r| ensures r[i] != r[j] {
          if j == |prev| {
            assert r[i] in prev;
          }
        }
      }
    }
  }

  /**
   * In a directory no two images share a path and no two label files share
   * a stem; then `list_pairs` lists no image twice.
   */
  lemma PairedImagesNoDuplicates(images: seq<File>, labels: seq<File>)
    requires forall i, j :: 0 <= i < j < |images| ==> images[i].path != images[j].path
    requires forall i, j :: 0 <= i < j < |labels| ==> labels[i].stem != labels[j].stem
    ensures NoDuplicates(PairedImages(images, labels))
  {
    var imgs := FirstByStem(images);
    var sortedLabels := SortBy(labels, PathOf);
    var found := Matched(sortedLabels, imgs);
    FirstByStemSpec(images);
    SortBySpec(labels, PathOf);
    SortPathsSpec(found);
    NoDuplicatesCounts(labels);
    NoDuplicatesCounts(sortedLabels);
    forall a, b | a in sortedLabels && b in sortedLabels && a.stem == b.stem ensures a == b {
      assert a in multiset(labels) && b in multiset(labels);
    }
    MatchedNoDuplicates(sortedLabels, imgs);
    NoDuplicatesCounts(found);
    NoDuplicatesCounts(PairedImages(images, labels));
  }

  /**
   * `list_pairs`: fills `imgs` image by image, keeping the first per stem,
   * then walks the sorted labels and keeps the image of each label's stem,
   * and returns the kept images sorted.
   */
  method ListPairs(images: seq<File>, labels: seq<File>) returns (pairs: seq<string>)
    ensures pairs == PairedImages(images, labels)
    ensures SortedBy(pairs, Identity)
    ensures |pairs| <= |labels|
    ensures forall p :: p in pairs <==>
      exists l, i :: l in labels && IsFirstOfStem(images, i) && images[i].stem == l.stem
        && images[i].path == p
  {
    var imgs: map<string, string> := map[];
    var i := 0;
    while i < |images|
      invariant 0 <= i <= |images|
      invariant imgs == FirstByStem(images[..i])
    {
      var f := images[i];
      assert images[..i + 1][..i] == images[..i];
      if f.stem !in imgs {
        imgs := imgs[f.stem := f.path];
      }
      i := i + 1;
    }
    assert images[..i] == images;
    var sortedLabels := SortBy(labels, PathOf);
    var found: seq<string> := [];
    var j := 0;
    while j < |sortedLabels|
      invariant 0 <= j <= |sortedLabels|
      invariant found == Matched(sortedLabels[..j], imgs)
    {
      var l := sortedLabels[j];
      assert sortedLabels[..j + 1][..j] == sortedLabels[..j];
      if l.stem in imgs {
        found := found + [imgs[l.stem]];
      }
      j := j + 1;
    }
    assert sortedLabels[..j] == sortedLabels;
    pairs := SortPaths(found);
    PairedImagesMembers(images, labels);
    PairedImagesShape(images, labels);
  }
}
