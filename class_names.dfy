/**
 * `load_names(real_root)`: the ordered class names of the real dataset,
 * from the `names: [...]` array of `dataset.yaml` when it parses as JSON,
 * else from `classes.json` ordered by integer key, else an error.
 */
module ClassNames {
  import opened Wrappers
  import opened Text
  import opened Ordering

  /** Why `load_names` raises. */
  datatype NamesError =
    | ClassesJsonInvalid          // json.loads of classes.json fails or is no object
    | ClassKeyNotInt(key: string) // int(key) raises ValueError
    | ClassKeyMissing(index: int) // str(k) is not a key: mp[k] raises KeyError
    | NoNameSource                // "Cannot determine class names from real dataset."

  /**
   * `json.loads` as the model sees it: for a text expected to hold an array
   * of strings, the array, or None where it raises.
   */
  type ArrayLoader = string -> Option<seq<string>>

  /**
   * `json.loads` of classes.json: the items of the resulting dict, each key
   * once and in insertion order, or None where it raises or the value is
   * no object.
   */
  type ObjectLoader = string -> Option<seq<(string, string)>>

  const NAMES_KEY := "names:"

  /** First index at or after `i` whose character `\s` does not match. */
  function SkipSpaces(txt: string, i: nat): (j: nat)
    requires i <= |txt|
    ensures i <= j <= |txt|
    ensures forall k :: i <= k < j ==> IsSpace(txt[k])
    ensures j < |txt| ==> !IsSpace(txt[j])
    decreases |txt| - i
  {
    if i < |txt| && IsSpace(txt[i]) then SkipSpaces(txt, i + 1) else i
  }

  /**
   * The regex `names:\s*(\[.*?\])` (dot matching newlines) anchored at `i`:
   * the group is the shortest bracketed run after the spaces.
   */
  function MatchAt(txt: string, i: nat): (g: Option<string>)
    requires i <= |txt|
    ensures g.Some? ==> |g.value| >= 2 && g.value[0] == '[' && g.value[|g.value| - 1] == ']'
    ensures g.Some? ==> ']' !in g.value[1..|g.value| - 1]
    ensures g.Some? ==> i + |NAMES_KEY| <= |txt| && txt[i..i + |NAMES_KEY|] == NAMES_KEY
  {
    if i + |NAMES_KEY| <= |txt| && txt[i..i + |NAMES_KEY|] == NAMES_KEY then
      var j := SkipSpaces(txt, i + |NAMES_KEY|);
      if j < |txt| && txt[j] == '[' then
        var rest := txt[j + 1..];
        var e := IndexOf(rest, ']');
        if e < |rest| then
          var g := "[" + rest[..e] + "]";
          assert g[1..|g| - 1] == rest[..e];
          Some(g)
        else None
      else None
    else None
  }

  /** The group of a match is the text that follows `names:` and its whitespace. */
  lemma MatchAtGroupInText(txt: string, i: nat)
    requires i <= |txt| && MatchAt(txt, i).Some?
    ensures var g, j := MatchAt(txt, i).value, SkipSpaces(txt, i + |NAMES_KEY|);
      j + |g| <= |txt| && txt[j..j + |g|] == g
  {
    var j := SkipSpaces(txt, i + |NAMES_KEY|);
    var rest := txt[j + 1..];
    var e := IndexOf(rest, ']');
    assert txt[j..j + e + 2] == "[" + rest[..e] + "]";
  }

  /**
   * `re.search`: the leftmost position at or after `i` where the pattern
   * matches, or None when it matches nowhere.
   */
  function SearchFrom(txt: string, i: nat): (k: Option<nat>)
    requires i <= |txt|
    ensures k.None? ==> forall p :: i <= p <= |txt| ==> MatchAt(txt, p).None?
    ensures k.Some? ==> i <= k.value <= |txt| && MatchAt(txt, k.value).Some?
    ensures k.Some? ==> forall p :: i <= p < k.value ==> MatchAt(txt, p).None?
    decreases |txt| - i
  {
    if MatchAt(txt, i).Some? then Some(i)
    else if i == |txt| then None
    else SearchFrom(txt, i + 1)
  }

  /**
   * Conversely, "names:", a run of whitespace, "[", text without "]" and
   * "]" at `i` is a match there, and its group is that bracketed text.
   */
  lemma MatchAtFinds(txt: string, i: nat, j: nat, e: nat)
    requires i + |NAMES_KEY| <= j < e < |txt|
    requires txt[i..i + |NAMES_KEY|] == NAMES_KEY
    requires forall k :: i + |NAMES_KEY| <= k < j ==> IsSpace(txt[k])
    requires txt[j] == '[' && txt[e] == ']'
    requires forall k :: j < k < e ==> txt[k] != ']'
    ensures MatchAt(txt, i) == Some(txt[j..e + 1])
  {
    SkipSpacesStops(txt, i + |NAMES_KEY|, j);
    IndexOfFirst(txt[j + 1..], ']', e - j - 1);
    BracketedSlice(txt, j, e);
  }

  lemma BracketedSlice(txt: string, j: nat, e: nat)
    requires j < e < |txt| && txt[j] == '[' && txt[e] == ']'
    ensures "[" + txt[j + 1..][..e - j - 1] + "]" == txt[j..e + 1]
  {
    assert txt[j + 1..][..e - j - 1] == txt[j + 1..e];
    assert txt[j..e + 1] == [txt[j]] + txt[j + 1..e] + [txt[e]];
  }

  /** `\s*` from `from` ends at the first character that is no whitespace. */
  lemma {:induction false} SkipSpacesStops(txt: string, from: nat, j: nat)
    requires from <= j < |txt|
    requires forall k :: from <= k < j ==> IsSpace(txt[k])
    requires txt[j] == '['
    ensures SkipSpaces(txt, from) == j
    decreases j - from
  {
    if from < j {
      assert IsSpace(txt[from]);
      SkipSpacesStops(txt, from + 1, j);
    } else {
      assert !IsSpace(txt[j]);
    }
  }

  /** The `names:` group of `dataset.yaml`, if the regex finds one: that of the leftmost match. */
  function NamesGroup(txt: string): (g: Option<string>)
    ensures g.None? ==> forall p :: 0 <= p <= |txt| ==> MatchAt(txt, p).None?
    ensures g.Some? ==>
      exists k :: 0 <= k <= |txt| && MatchAt(txt, k) == g &&
        forall p :: 0 <= p < k ==> MatchAt(txt, p).None?
  {
    match SearchFrom(txt, 0)
    case None => None
    case Some(k) => MatchAt(txt, k)
  }

  /** The first item whose key is `key`: a dict lookup. */
  function Lookup(items: seq<(string, string)>, key: string): (v: Option<string>)
    ensures v.Some? <==> exists j :: 0 <= j < |items| && items[j].0 == key
    ensures v.Some? ==> (key, v.value) in items
  {
    if items == [] then None
    else if items[0].0 == key then Some(items[0].1)
    else Lookup(items[1..], key)
  }

  /** `map(int, mp.keys())`, raising at the first key that is no integer. */
  function KeyInts(items: seq<(string, string)>): (r: Result<seq<int>, NamesError>)
    ensures r.Success? <==> forall j :: 0 <= j < |items| ==> IntOf(items[j].0).Some?
    ensures r.Success? ==> |r.value| == |items|
    ensures r.Success? ==> forall j :: 0 <= j < |items| ==> IntOf(items[j].0) == Some(r.value[j])
    ensures r.Failure? ==> r.error.ClassKeyNotInt? && IntOf(r.error.key).None?
    ensures r.Failure? ==> exists j :: 0 <= j < |items| && items[j].0 == r.error.key
  {
    if items == [] then Success([])
    else
      var n := |items| - 1;
      var rest := KeyInts(items[..n]);
      var k := IntOf(items[n].0);
      if rest.Failure? then rest
      else if k.None? then Failure(ClassKeyNotInt(items[n].0))
      else Success(rest.value + [k.value])
  }

  /** `[mp[str(k)] if str(k) in mp else mp[k] for k in keys]`. */
  function ValuesInOrder(items: seq<(string, string)>, keys: seq<int>): (r: Result<seq<string>, NamesError>)
    ensures r.Success? <==> forall i :: 0 <= i < |keys| ==> Lookup(items, IntToString(keys[i])).Some?
    ensures r.Success? ==> |r.value| == |keys|
    ensures r.Success? ==> forall i :: 0 <= i < |keys| ==> (IntToString(keys[i]), r.value[i]) in items
    ensures r.Failure? ==> r.error.ClassKeyMissing? && Lookup(items, IntToString(r.error.index)).None?
  {
    if keys == [] then Success([])
    else
      match Lookup(items, IntToString(keys[0]))
      case None => Failure(ClassKeyMissing(keys[0]))
      case Some(v) =>
        match ValuesInOrder(items, keys[1..])
        case Failure(e) => Failure(e)
        case Success(vs) => Success([v] + vs)
  }

  /** The key reported as no integer is the first one in `items` that `int()` rejects. */
  lemma {:induction false} KeyIntsFirstRejected(items: seq<(string, string)>)
    requires KeyInts(items).Failure?
    ensures exists i ::
      && 0 <= i < |items| && items[i].0 == KeyInts(items).error.key && IntOf(items[i].0).None?
      && forall j :: 0 <= j < i ==> IntOf(items[j].0).Some?
  {
    var n := |items| - 1;
    var prefix := items[..n];
    if KeyInts(prefix).Failure? {
      KeyIntsFirstRejected(prefix);
      var i :| && 0 <= i < |prefix| && prefix[i].0 == KeyInts(prefix).error.key && IntOf(prefix[i].0).None?
               && forall j :: 0 <= j < i ==> IntOf(prefix[j].0).Some?;
      assert items[i] == prefix[i];
      forall j | 0 <= j < i
        ensures IntOf(items[j].0).Some?
      {
        assert items[j] == prefix[j];
      }
    } else {
      assert forall j :: 0 <= j < n ==> IntOf(items[j].0).Some? by {
        forall j | 0 <= j < n
          ensures IntOf(items[j].0).Some?
        {
          assert items[j] == prefix[j];
        }
      }
      assert items[n].0 == KeyInts(items).error.key;
    }
  }

  /** The key reported missing is the first one in `keys` whose canonical form is not stored. */
  lemma {:induction false} ValuesInOrderFirstMissing(items: seq<(string, string)>, keys: seq<int>)
    requires ValuesInOrder(items, keys).Failure?
    ensures exists i ::
      && 0 <= i < |keys| && keys[i] == ValuesInOrder(items, keys).error.index
      && forall j :: 0 <= j < i ==> Lookup(items, IntToString(keys[j])).Some?
  {
    if Lookup(items, IntToString(keys[0])).Some? {
      ValuesInOrderFirstMissing(items, keys[1..]);
      var i :| 0 <= i < |keys[1..]| && keys[1..][i] == ValuesInOrder(items, keys[1..]).error.index &&
        forall j :: 0 <= j < i ==> Lookup(items, IntToString(keys[1..][j])).Some?;
      assert keys[i + 1] == ValuesInOrder(items, keys).error.index;
      forall j | 0 <= j < i + 1
        ensures Lookup(items, IntToString(keys[j])).Some?
      {
        if j > 0 {
          assert keys[j] == keys[1..][j - 1];
        }
      }
    } else {
      assert keys[0] == ValuesInOrder(items, keys).error.index;
    }
  }

  /** `v` is stored under some key of `items`. */
  predicate IsStored(items: seq<(string, string)>, v: string)
  {
    exists j :: 0 <= j < |items| && items[j].1 == v
  }

  /** Every value of a successful lookup is stored in `items`. */
  lemma StoredValues(items: seq<(string, string)>, keys: seq<int>, vs: seq<string>)
    requires |vs| == |keys|
    requires forall i :: 0 <= i < |keys| ==> (IntToString(keys[i]), vs[i]) in items
    ensures forall i :: 0 <= i < |vs| ==> IsStored(items, vs[i])
  {
    forall i | 0 <= i < |vs|
      ensures IsStored(items, vs[i])
    {
      var x := (IntToString(keys[i]), vs[i]);
      assert x in items;
      var j :| 0 <= j < |items| && items[j] == x;
      assert items[j].1 == vs[i];
    }
  }

  /**
   * The classes.json branch, once the file has loaded as an object: one
   * stored name per key, or the error of a key that is no integer or
   * whose canonical form is not a key.
   */
  function NamesFromClassIndex(items: seq<(string, string)>): (r: Result<seq<string>, NamesError>)
    ensures r.Success? ==> |r.value| == |items|
    ensures r.Success? ==> forall i :: 0 <= i < |r.value| ==> IsStored(items, r.value[i])
    ensures r.Failure? ==> r.error.ClassKeyNotInt? || r.error.ClassKeyMissing?
  {
    match KeyInts(items)
    case Failure(e) => Failure(e)
    case Success(ks) =>
      var sorted := SortInts(ks);
      assert |sorted| == |ks| by {
        assert |multiset(sorted)| == |multiset(ks)|;
      }
      var r := ValuesInOrder(items, sorted);
      if r.Success? then StoredValues(items, sorted, r.value); r else r
  }

  /**
   * `load_names`: `dataset` and `classes` are the two files' texts, None
   * when the file does not exist.
   */
  function LoadNames(dataset: Option<string>, classes: Option<string>,
                     loadArray: ArrayLoader, loadObject: ObjectLoader): (r: Result<seq<string>, NamesError>)
    ensures r.Failure? ==> (r.error.NoNameSource? <==> classes.None?)
    ensures r.Failure? && classes.Some? ==> (r.error.ClassesJsonInvalid? <==> loadObject(classes.value).None?)
    ensures r.Success? && classes.None? ==> dataset.Some?
  {
    var fromYaml :=
      match dataset
      case None => None
      case Some(txt) =>
        match NamesGroup(txt)
        case None => None
        case Some(g) => loadArray(g);
    if fromYaml.Some? then Success(fromYaml.value)
    else
      match classes
      case None => Failure(NoNameSource)
      case Some(text) =>
        match loadObject(text)
        case None => Failure(ClassesJsonInvalid)
        case Some(items) => NamesFromClassIndex(items)
  }

  /** A group the regex finds in `dataset.yaml` that loads wins, whatever classes.json holds. */
  lemma DatasetYamlFirst(txt: string, classes: Option<string>,
                         loadArray: ArrayLoader, loadObject: ObjectLoader)
    requires NamesGroup(txt).Some? && loadArray(NamesGroup(txt).value).Some?
    ensures LoadNames(Some(txt), classes, loadArray, loadObject) == Success(loadArray(NamesGroup(txt).value).value)
  {
  }

  /**
   * Without a usable `names:` array (no dataset.yaml, no match, or a group
   * json.loads rejects) the answer is the classes.json branch's.
   */
  lemma FallsBackToClassIndex(dataset: Option<string>, text: string,
                              loadArray: ArrayLoader, loadObject: ObjectLoader)
    requires dataset.Some? ==> NamesGroup(dataset.value).None? || loadArray(NamesGroup(dataset.value).value).None?
    ensures loadObject(text).None? ==> LoadNames(dataset, Some(text), loadArray, loadObject) == Failure(ClassesJsonInvalid)
    ensures loadObject(text).Some? ==>
      LoadNames(dataset, Some(text), loadArray, loadObject) == NamesFromClassIndex(loadObject(text).value)
  {
  }

  /** Neither source usable and no classes.json: the RuntimeError. */
  lemma NoSourceRaises(dataset: Option<string>, loadArray: ArrayLoader, loadObject: ObjectLoader)
    requires dataset.Some? ==> NamesGroup(dataset.value).None? || loadArray(NamesGroup(dataset.value).value).None?
    ensures LoadNames(dataset, None, loadArray, loadObject) == Failure(NoNameSource)
  {
  }

  /** Every key is the decimal form of some integer, as `str(k)` writes it. */
  ghost predicate CanonicalKeys(items: seq<(string, string)>)
  {
    forall j :: 0 <= j < |items| ==> exists k: int :: items[j].0 == IntToString(k)
  }

  /**
   * With keys that are `str` of integers, classes.json gives one name per
   * key, in ascending order of the integer keys, each the value stored
   * under its key.
   */
  lemma ClassIndexOrder(items: seq<(string, string)>)
    requires CanonicalKeys(items)
    ensures NamesFromClassIndex(items).Success?
    ensures |NamesFromClassIndex(items).value| == |items|
    ensures exists ks: seq<int> ::
      && |ks| == |items|
      && Ascending(ks)
      && (forall j :: 0 <= j < |items| ==> IntOf(items[j].0).value in ks)
      && (forall i :: 0 <= i < |ks| ==> (IntToString(ks[i]), NamesFromClassIndex(items).value[i]) in items)
  {
    KeyIntsCanonical(items);
    var ks := KeyInts(items).value;
    var sorted := SortInts(ks);
    SortedKeysPresent(items, ks, sorted);
    var r := ValuesInOrder(items, sorted);
    assert NamesFromClassIndex(items) == r;
    SortedWitness(items, ks, sorted, r.value);
  }

  lemma SortedWitness(items: seq<(string, string)>, ks: seq<int>, sorted: seq<int>, names: seq<string>)
    requires |ks| == |items|
    requires forall j :: 0 <= j < |items| ==> IntOf(items[j].0) == Some(ks[j])
    requires Ascending(sorted) && multiset(sorted) == multiset(ks)
    requires |names| == |sorted|
    requires forall i :: 0 <= i < |sorted| ==> (IntToString(sorted[i]), names[i]) in items
    ensures exists ks': seq<int> ::
      && |ks'| == |items|
      && Ascending(ks')
      && (forall j :: 0 <= j < |items| ==> IntOf(items[j].0).value in ks')
      && |ks'| == |names|
      && (forall i :: 0 <= i < |ks'| ==> (IntToString(ks'[i]), names[i]) in items)
  {
    assert |sorted| == |multiset(sorted)| == |multiset(ks)| == |ks|;
    forall j | 0 <= j < |items| ensures IntOf(items[j].0).value in sorted {
      assert ks[j] in multiset(sorted);
    }
  }

  /** Canonical keys all parse, each back to the text it was read from. */
  lemma KeyIntsCanonical(items: seq<(string, string)>)
    requires CanonicalKeys(items)
    ensures KeyInts(items).Success?
    ensures forall j :: 0 <= j < |items| ==> IntToString(KeyInts(items).value[j]) == items[j].0
  {
    forall j | 0 <= j < |items|
      ensures IntOf(items[j].0).Some? && IntToString(IntOf(items[j].0).value) == items[j].0
    {
      var k: int :| items[j].0 == IntToString(k);
      IntOfToString(k);
    }
  }

  lemma SortedKeysPresent(items: seq<(string, string)>, ks: seq<int>, sorted: seq<int>)
    requires |ks| == |items|
    requires forall j :: 0 <= j < |items| ==> IntToString(ks[j]) == items[j].0
    requires multiset(sorted) == multiset(ks)
    ensures forall i :: 0 <= i < |sorted| ==> Lookup(items, IntToString(sorted[i])).Some?
    ensures forall k :: k in ks ==> k in sorted
  {
    forall i | 0 <= i < |sorted|
      ensures Lookup(items, IntToString(sorted[i])).Some?
    {
      assert sorted[i] in multiset(ks);
      var j :| 0 <= j < |ks| && ks[j] == sorted[i];
      assert items[j].0 == IntToString(sorted[i]);
    }
    forall k | k in ks
      ensures k in sorted
    {
      assert k in multiset(sorted);
    }
  }

  /**
   * A key written with a leading zero parses, but `str(int(key))` is not
   * that key, so the lookup raises KeyError.
   */
  lemma LeadingZeroKeyRaises()
    ensures NamesFromClassIndex([("01", "apple")]) == Failure(ClassKeyMissing(1))
  {
    var items := [("01", "apple")];
    LeadingZeroKeyInts();
    assert SortInts([1]) == [1];
    assert IntToString(1) == "1";
    assert Lookup(items, "1").None? by {
      assert Lookup(items[1..], "1").None?;
    }
  }

  /**
   * With both `"01"` and `"1"` as keys, both parse as 1 and the lookup of
   * `"1"` succeeds twice: the name under `"01"` is lost.
   */
  lemma LeadingZeroKeyShadowed()
    ensures NamesFromClassIndex([("01", "apple"), ("1", "pear")]) == Success(["pear", "pear"])
  {
    ShadowedKeyInts();
    assert SortInts([1, 1]) == [1, 1] by {
      assert SortInts([1]) == [1];
    }
    ShadowedValues();
  }

  lemma ShadowedValues()
    ensures ValuesInOrder([("01", "apple"), ("1", "pear")], [1, 1]) == Success(["pear", "pear"])
  {
    var items := [("01", "apple"), ("1", "pear")];
    assert IntToString(1) == "1";
    assert Lookup(items, "1") == Some("pear") by {
      assert Lookup(items[1..], "1") == Some("pear");
    }
    assert [1, 1][1..] == [1] && [1][1..] == [];
    assert ValuesInOrder(items, []) == Success([]);
    assert ["pear"] + [] == ["pear"] && ["pear"] + ["pear"] == ["pear", "pear"];
    assert ValuesInOrder(items, [1]) == Success(["pear"]);
  }

  lemma ShadowedKeyInts()
    ensures KeyInts([("01", "apple"), ("1", "pear")]) == Success([1, 1])
  {
    var items := [("01", "apple"), ("1", "pear")];
    assert IntOf("1") == Some(1) by {
      assert StripStart("1") == "1";
      assert StripEnd("1") == "1";
    }
    assert items[..1] == [("01", "apple")];
    LeadingZeroKeyInts();
    assert items[1].0 == "1" && [1] + [1] == [1, 1];
  }

  lemma LeadingZeroKeyInts()
    ensures KeyInts([("01", "apple")]) == Success([1])
  {
    var items := [("01", "apple")];
    LeadingZeroKeyParses();
    assert items[..0] == [];
    assert [] + [1] == [1];
  }

  lemma LeadingZeroKeyParses()
    ensures IntOf("01") == Some(1)
  {
    var key := "01";
    assert StripStart(key) == key;
    assert StripEnd(key) == key;
    assert key[..1] == "0" && DigitsValue(key[..1]) == 0;
  }

  /**
   * The lazy `.*?` stops at the first "]", even one inside a quoted class
   * name: the group is then no complete JSON array.
   */
  lemma BracketInNameCutsGroup()
    ensures NamesGroup("names: [\"a]b\"]") == Some("[\"a]")
  {
    var txt := "names: [\"a]b\"]";
    assert txt[0..6] == NAMES_KEY;
    MatchAtFinds(txt, 0, 7, 10);
    assert txt[7..11] == "[\"a]";
  }
}
