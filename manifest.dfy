/**
 * The files each epoch writes: `write_list` (one resolved, forward-slash
 * path per line) and the text of `dataset_epNNN.yaml`.
 */
module Manifest {
  import opened Wrappers
  import opened Text
  import opened JsonText

  /** `s.replace("\\", "/")`. */
  function ForwardSlashes(s: string): (r: string)
    ensures |r| == |s| && '\\' !in r
    ensures forall i :: 0 <= i < |s| && s[i] != '\\' ==> r[i] == s[i]
    ensures forall i :: 0 <= i < |s| && s[i] == '\\' ==> r[i] == '/'
  {
    seq(|s|, i requires 0 <= i < |s| => if s[i] == '\\' then '/' else s[i])
  }

  /**
   * `Path.resolve()` as a lexical operation: an absolute path is kept, a
   * relative one is joined to the working directory, which is `/` itself
   * or a directory path without a trailing `/`.
   */
  function Resolve(cwd: string, p: string): string
  {
    if |p| > 0 && p[0] == '/' then p
    else if cwd == "/" then "/" + p
    else cwd + "/" + p
  }

  /** `str(p.resolve()).replace("\\", "/")`. */
  function ListLine(cwd: string, p: string): string
  {
    ForwardSlashes(Resolve(cwd, p))
  }

  /** The text `write_list(paths, dst)` leaves in `dst`. */
  function ListText(cwd: string, paths: seq<string>): string
  {
    if paths == [] then "" else ListLine(cwd, paths[0]) + "\n" + ListText(cwd, paths[1..])
  }

  lemma {:induction false} ListTextAppend(cwd: string, paths: seq<string>, p: string)
    ensures ListText(cwd, paths + [p]) == ListText(cwd, paths) + ListLine(cwd, p) + "\n"
  {
    if paths != [] {
      assert (paths + [p])[1..] == paths[1..] + [p];
      ListTextAppend(cwd, paths[1..], p);
    }
  }

  /** The list of `a + b` is the list of `a` followed by the list of `b`. */
  lemma {:induction false} ListTextConcat(cwd: string, a: seq<string>, b: seq<string>)
    ensures ListText(cwd, a + b) == ListText(cwd, a) + ListText(cwd, b)
  {
    if a == [] {
      assert a + b == b;
    } else {
      assert (a + b)[0] == a[0];
      assert (a + b)[1..] == a[1..] + b;
      ListTextConcat(cwd, a[1..], b);
    }
  }

  lemma ListLineOneLine(cwd: string, p: string)
    requires '\n' !in cwd && '\n' !in p
    ensures '\n' !in ListLine(cwd, p)
  {
    var r := Resolve(cwd, p);
    assert '\n' !in r;
  }

  /**
   * `write_list` emits one line per path, in the given order, each the
   * resolved path with forward slashes.
   */
  lemma {:induction false} ListTextLines(cwd: string, paths: seq<string>)
    requires '\n' !in cwd
    requires forall i :: 0 <= i < |paths| ==> '\n' !in paths[i]
    ensures |SplitLines(ListText(cwd, paths))| == |paths|
    ensures forall i :: 0 <= i < |paths| ==> SplitLines(ListText(cwd, paths))[i] == ListLine(cwd, paths[i])
  {
    if paths != [] {
      ListLineOneLine(cwd, paths[0]);
      SplitLinesCons(ListLine(cwd, paths[0]), ListText(cwd, paths[1..]));
      ListTextLines(cwd, paths[1..]);
    }
  }

  /** No line of a path list contains a backslash. */
  lemma {:induction false} ListTextHasNoBackslash(cwd: string, paths: seq<string>)
    ensures '\\' !in ListText(cwd, paths)
  {
    if paths != [] {
      ListTextHasNoBackslash(cwd, paths[1..]);
    }
  }

  /**
   * `write_list`: writes the paths one by one, each followed by a newline;
   * the file holds nothing else.
   */
  method WriteList(cwd: string, paths: seq<string>) returns (text: string)
    ensures text == ListText(cwd, paths)
    ensures '\\' !in text
  {
    text := "";
    var i := 0;
    while i < |paths|
      invariant 0 <= i <= |paths|
      invariant text == ListText(cwd, paths[..i])
    {
      ListTextAppend(cwd, paths[..i], paths[i]);
      assert paths[..i + 1] == paths[..i] + [paths[i]];
      text := text + ListLine(cwd, paths[i]) + "\n";
      i := i + 1;
    }
    assert paths[..i] == paths;
    ListTextHasNoBackslash(cwd, paths);
  }

  /** The lines of `dataset_epNNN.yaml`, in the order they are written. */
  function DatasetYamlLines(cwd: string, trainList: string, valList: string, testList: string,
                            names: seq<string>): seq<string>
  {
    [ "train: " + ListLine(cwd, trainList),
      "val: " + ListLine(cwd, valList),
      "test: " + ListLine(cwd, testList),
      "nc: " + IntToString(|names|),
      "names: " + Dumps(names) ]
  }

  /** The text of `dataset_epNNN.yaml`: each of its lines ended by "\n". */
  function DatasetYaml(cwd: string, trainList: string, valList: string, testList: string,
                       names: seq<string>): (r: string)
    ensures |r| > 7 && r[..7] == "train: "
  {
    JoinLines(DatasetYamlLines(cwd, trainList, valList, testList, names))
  }

  lemma NumberOneLine(n: nat)
    ensures '\n' !in IntToString(n)
  {
  }

  /** The dataset description splits into exactly its five lines. */
  lemma DatasetYamlSplits(cwd: string, trainList: string, valList: string, testList: string,
                          names: seq<string>)
    requires '\n' !in cwd && '\n' !in trainList && '\n' !in valList && '\n' !in testList
    ensures SplitLines(DatasetYaml(cwd, trainList, valList, testList, names))
      == DatasetYamlLines(cwd, trainList, valList, testList, names)
  {
    var lines := DatasetYamlLines(cwd, trainList, valList, testList, names);
    ListLineOneLine(cwd, trainList);
    ListLineOneLine(cwd, valList);
    ListLineOneLine(cwd, testList);
    NumberOneLine(|names|);
    DumpsIsOneLine(names);
    SplitJoinLines(lines);
  }

  /**
   * Reading the dataset description back, line by line: train, val and test
   * name the three list files (resolved, forward slashes), `nc` parses as
   * the number of names and `names` decodes to the names themselves.
   */
  lemma DatasetYamlFields(cwd: string, trainList: string, valList: string, testList: string,
                          names: seq<string>)
    requires '\n' !in cwd && '\n' !in trainList && '\n' !in valList && '\n' !in testList
    ensures var lines := SplitLines(DatasetYaml(cwd, trainList, valList, testList, names));
      && |lines| == 5
      && lines[0] == "train: " + ListLine(cwd, trainList)
      && lines[1] == "val: " + ListLine(cwd, valList)
      && lines[2] == "test: " + ListLine(cwd, testList)
      && |lines[3]| >= 4 && lines[3][..4] == "nc: " && ParseInt(lines[3][4..]) == Some(|names|)
      && |lines[4]| >= 7 && lines[4][..7] == "names: " && DecodeArray(lines[4][7..]) == Some(names)
  {
    DatasetYamlSplits(cwd, trainList, valList, testList, names);
    var v3, v4 := IntToString(|names|), Dumps(names);
    assert ("nc: " + v3)[..4] == "nc: " && ("nc: " + v3)[4..] == v3;
    ParseIntToString(|names|);
    assert ("names: " + v4)[..7] == "names: " && ("names: " + v4)[7..] == v4;
    DumpsRoundTrip(names);
  }
}
