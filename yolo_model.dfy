/**
 * The deterministic layer of `YoloModel` (src/classes/yolo_model.py): the
 * confidence check of `predict`, the family/version validation of
 * `_load_model`, the class tables built by the constructor, the dispatch of
 * `predict` and the summary-building tails of `_predict_yolov5` and
 * `_predict_yolov8`.  The detector itself is foreign: what it reports for one
 * image is an input (`Inference`).
 */
module Yolo {
  import opened Wrappers
  import Defaults

  // ---------------------------------------------------------------------------
  // Text helpers: `str.lower()` and `key in text`
  // ---------------------------------------------------------------------------

  /** ASCII lower-casing of one character. */
  function LowerChar(c: char): (r: char)
    ensures !('A' <= r <= 'Z')
    ensures 'A' <= c <= 'Z' ==> r as int == c as int + 32
    ensures !('A' <= c <= 'Z') ==> r == c
  {
    if 'A' <= c <= 'Z' then (c as int + 32) as char else c
  }

  /** `s.lower()`, restricted to ASCII letters. */
  function Lower(s: string): (r: string)
    ensures |r| == |s|
    ensures forall i :: 0 <= i < |r| ==> r[i] == LowerChar(s[i]) && !('A' <= r[i] <= 'Z')
  {
    seq(|s|, i requires 0 <= i < |s| => LowerChar(s[i]))
  }

  /** A string without ASCII capitals is its own lower-case form. */
  lemma LowerFixesLowercase(s: string)
    requires forall i :: 0 <= i < |s| ==> !('A' <= s[i] <= 'Z')
    ensures Lower(s) == s
  {
  }

  /** Lower-casing twice is lower-casing once. */
  lemma LowerIdempotent(s: string)
    ensures Lower(Lower(s)) == Lower(s)
  {
    LowerFixesLowercase(Lower(s));
  }

  /** Python's `part in whole` on two strings: `part` occurs contiguously in `whole`. */
  function IsSubstring(part: string, whole: string): (b: bool)
    ensures b <==> exists i, j :: 0 <= i <= j <= |whole| && whole[i..j] == part
    ensures b ==> |part| <= |whole|
  {
    SliceIsSubstring(part, whole);
    exists i :: 0 <= i <= |whole| && part <= whole[i..]
  }

  /** A prefix of a suffix is exactly a slice. */
  lemma SliceIsSubstring(part: string, whole: string)
    ensures (exists i :: 0 <= i <= |whole| && part <= whole[i..])
        <==> (exists i, j :: 0 <= i <= j <= |whole| && whole[i..j] == part)
  {
    if exists i :: 0 <= i <= |whole| && part <= whole[i..] {
      var i :| 0 <= i <= |whole| && part <= whole[i..];
      var j := i + |part|;
      assert whole[i..j] == part;
    }
    if exists i, j :: 0 <= i <= j <= |whole| && whole[i..j] == part {
      var i, j :| 0 <= i <= j <= |whole| && whole[i..j] == part;
      assert part <= whole[i..];
    }
  }

  // ---------------------------------------------------------------------------
  // Confidence normalisation (`predict`)
  // ---------------------------------------------------------------------------

  /**
   * The confidence actually handed to the detector: the caller's value when it
   * lies in (0, 1], otherwise (missing, falsy zero, or out of range) the
   * default 0.45.
   */
  function NormalizeConfidence(confidence: Option<real>): (r: real)
    ensures 0.0 < r <= 1.0
    ensures confidence.Some? && 0.0 < confidence.value <= 1.0 ==> r == confidence.value
    ensures confidence.None? || confidence.value <= 0.0 || confidence.value > 1.0 ==>
              r == Defaults.ModelConfidenceValue
  {
    // `not model_confidence` holds for None and for 0.0
    if confidence.None? || confidence.value == 0.0
       || confidence.value <= 0.0 || confidence.value > 1.0
    then Defaults.ModelConfidenceValue
    else confidence.value
  }

  /** Normalising an already normalised confidence changes nothing. */
  lemma NormalizeConfidenceIdempotent(confidence: Option<real>)
    ensures NormalizeConfidence(Some(NormalizeConfidence(confidence))) == NormalizeConfidence(confidence)
  {
  }

  // ---------------------------------------------------------------------------
  // Model family and version validation (`_load_model`)
  // ---------------------------------------------------------------------------

  const AcceptedModelFamilies: seq<string> := ["yolov5", "yolov8"]
  const Yolov8ModelVersions: seq<string> := ["yolov8n.pt", "yolov8n-seg.pt"]

  /** The two `ValueError`s `_load_model` raises. */
  datatype ModelError =
    | InvalidModelFamily(family: string)
    | InvalidModelVersion(version: string)

  /**
   * The checks `_load_model` makes before loading any weights.  `hubVersions`
   * stands for `torch.hub.list("ultralytics/yolov5")`, which only the yolov5
   * branch consults.
   */
  function CheckModel(family: string, version: string, hubVersions: seq<string>): (r: Outcome<ModelError>)
    ensures family !in AcceptedModelFamilies ==> r == Fail(InvalidModelFamily(family))
    ensures family == "yolov5" ==> (r == Pass <==> version in hubVersions)
    ensures family == "yolov8" ==> (r == Pass <==> version in Yolov8ModelVersions)
    ensures family in AcceptedModelFamilies && r.Fail? ==> r == Fail(InvalidModelVersion(version))
  {
    if family !in AcceptedModelFamilies then Fail(InvalidModelFamily(family))
    else if family == "yolov5" then
      if version in hubVersions then Pass else Fail(InvalidModelVersion(version))
    else
      if version in Yolov8ModelVersions then Pass else Fail(InvalidModelVersion(version))
  }

  /** The hub's version list plays no part in accepting or rejecting a non-yolov5 family. */
  lemma CheckModelIgnoresHubUnlessYolov5(family: string, version: string, hub1: seq<string>, hub2: seq<string>)
    requires family != "yolov5"
    ensures CheckModel(family, version, hub1) == CheckModel(family, version, hub2)
  {
  }

  // ---------------------------------------------------------------------------
  // Dictionaries built in insertion order
  // ---------------------------------------------------------------------------

  /**
   * The keys of a Python dict into which the elements of `s` are inserted in
   * order: each element once, at the position of its first occurrence.
   */
  function FirstOccurrences<T(==, !new)>(s: seq<T>): (r: seq<T>)
    ensures forall x :: x in r <==> x in s
    ensures forall i, j :: 0 <= i < j < |r| ==> r[i] != r[j]
    ensures |r| <= |s|
    decreases |s|
  {
    if s == [] then []
    else
      var prefix := FirstOccurrences(s[..|s| - 1]);
      assert s == s[..|s| - 1] + [s[|s| - 1]];
      if s[|s| - 1] in prefix then prefix else prefix + [s[|s| - 1]]
  }

  /**
   * The keys come in order of first occurrence: an earlier key `r[i]` occurs
   * in `s` before every occurrence `s[q]` of a later key `r[j]`.
   */
  lemma {:induction false} FirstOccurrencesOrder<T(!new)>(s: seq<T>, i: nat, j: nat, q: nat)
    requires i < j < |FirstOccurrences(s)| && q < |s|
    requires s[q] == FirstOccurrences(s)[j]
    ensures FirstOccurrences(s)[i] in s[..q]
    decreases |s|
  {
    var init := s[..|s| - 1];
    var last := s[|s| - 1];
    var prefix := FirstOccurrences(init);
    var r := FirstOccurrences(s);
    assert s == init + [last];
    assert r == if last in prefix then prefix else prefix + [last];
    assert r[i] == prefix[i];
    if q < |s| - 1 {
      assert s[q] == init[q] && s[..q] == init[..q];
      FirstOccurrencesOrder(init, i, j, q);
    } else {
      assert s[..q] == init;
      assert prefix[i] in prefix;
    }
  }

  /** The dict `{k: v for k, v in items}`: a later item overwrites an earlier one with the same key. */
  function ItemsToMap<K(==, !new), V>(items: seq<(K, V)>): (m: map<K, V>)
    ensures forall k :: k in m <==> exists i :: 0 <= i < |items| && items[i].0 == k
    ensures forall k :: k in m ==> exists i :: 0 <= i < |items| && items[i] == (k, m[k])
    decreases |items|
  {
    if items == [] then map[]
    else
      var last := items[|items| - 1];
      var prefix := ItemsToMap(items[..|items| - 1]);
      assert forall i :: 0 <= i < |items| - 1 ==> items[..|items| - 1][i] == items[i];
      prefix[last.0 := last.1]
  }

  /** An item that no later item overwrites is what the dict holds for its key. */
  lemma {:induction false} ItemsToMapLastWins<K(!new), V>(items: seq<(K, V)>, i: nat)
    requires i < |items|
    requires forall j :: i < j < |items| ==> items[j].0 != items[i].0
    ensures items[i].0 in ItemsToMap(items) && ItemsToMap(items)[items[i].0] == items[i].1
    decreases |items|
  {
    if i < |items| - 1 {
      var prefix := items[..|items| - 1];
      assert prefix[i] == items[i];
      ItemsToMapLastWins(prefix, i);
    }
  }

  // ---------------------------------------------------------------------------
  // Class tables (`_get_model_classes`, `_map_model_classes`)
  // ---------------------------------------------------------------------------

  /** `model.names` of a loaded detector: its (class id, class name) items in dict order. */
  type ClassTable = seq<(int, string)>

  /** The keys of a dict are distinct: every table read from `model.names` satisfies this. */
  predicate DistinctIds(table: ClassTable)
  {
    forall i, j :: 0 <= i < j < |table| ==> table[i].0 != table[j].0
  }

  predicate DistinctNames(table: ClassTable)
  {
    forall i, j :: 0 <= i < j < |table| ==> table[i].1 != table[j].1
  }

  function Swapped(table: ClassTable): seq<(string, int)>
  {
    seq(|table|, i requires 0 <= i < |table| => (table[i].1, table[i].0))
  }

  function Names(table: ClassTable): seq<string>
  {
    seq(|table|, i requires 0 <= i < |table| => table[i].1)
  }

  /**
   * `_get_model_classes`: the list of class ids in dict order and a copy of
   * the id -> name mapping.
   */
  function GetModelClasses(table: ClassTable): (r: (seq<int>, map<int, string>))
    ensures |r.0| == |table| && forall i :: 0 <= i < |table| ==> r.0[i] == table[i].0
    ensures forall id :: id in r.1 <==> id in r.0
    ensures DistinctIds(table) ==> forall i :: 0 <= i < |table| ==> r.1[table[i].0] == table[i].1
  {
    var ids := seq(|table|, i requires 0 <= i < |table| => table[i].0);
    assert DistinctIds(table) ==> forall i :: 0 <= i < |table| ==> ItemsToMap(table)[table[i].0] == table[i].1 by {
      if DistinctIds(table) {
        forall i | 0 <= i < |table| ensures ItemsToMap(table)[table[i].0] == table[i].1 {
          ItemsToMapLastWins(table, i);
        }
      }
    }
    (ids, ItemsToMap(table))
  }

  /**
   * `_map_model_classes`: the inverted name -> id mapping and the list of its
   * keys, in the order the dict comprehension first inserts them.
   */
  function MapModelClasses(table: ClassTable): (r: (map<string, int>, seq<string>))
    ensures forall name :: name in r.0 <==> name in r.1
    ensures forall i :: 0 <= i < |table| ==> table[i].1 in r.0
    ensures forall name :: name in r.0 ==> exists i :: 0 <= i < |table| && table[i] == (r.0[name], name)
    ensures forall i, j :: 0 <= i < j < |r.1| ==> r.1[i] != r.1[j]
    ensures r.1 == FirstOccurrences(Names(table))
  {
    SwappedKeys(table);
    SwappedEntries(table);
    (ItemsToMap(Swapped(table)), FirstOccurrences(Names(table)))
  }

  /** The keys of the inverted dict are exactly the class names. */
  lemma SwappedKeys(table: ClassTable)
    ensures forall name :: name in ItemsToMap(Swapped(table)) <==> name in Names(table)
    ensures forall i :: 0 <= i < |table| ==> table[i].1 in ItemsToMap(Swapped(table))
  {
    var swapped := Swapped(table);
    assert forall i :: 0 <= i < |table| ==> swapped[i].0 == Names(table)[i] == table[i].1;
  }

  /** Every entry of the inverted dict is a table item read backwards. */
  lemma SwappedEntries(table: ClassTable)
    ensures forall name :: name in ItemsToMap(Swapped(table)) ==>
              exists i :: 0 <= i < |table| && table[i] == (ItemsToMap(Swapped(table))[name], name)
  {
    var swapped := Swapped(table);
    var inv := ItemsToMap(swapped);
    forall name | name in inv
      ensures exists i :: 0 <= i < |table| && table[i] == (inv[name], name)
    {
      var i :| 0 <= i < |swapped| && swapped[i] == (name, inv[name]);
      assert table[i] == (inv[name], name);
    }
  }

  /** With distinct class names the inversion is exact: `inv[names[k]] == k`. */
  lemma InvertedClassesExact(table: ClassTable)
    requires DistinctNames(table)
    ensures forall i :: 0 <= i < |table| ==> MapModelClasses(table).0[table[i].1] == table[i].0
  {
    var swapped := Swapped(table);
    forall i | 0 <= i < |table| ensures ItemsToMap(swapped)[swapped[i].0] == swapped[i].1 {
      ItemsToMapLastWins(swapped, i);
    }
  }

  /** Every name the id -> name mapping yields is listed in `class_names`. */
  lemma MappedNamesListed(table: ClassTable)
    requires DistinctIds(table)
    ensures var mapping := GetModelClasses(table).1;
            forall id :: id in mapping ==> mapping[id] in MapModelClasses(table).1
  {
    var (ids, mapping) := GetModelClasses(table);
    forall id | id in mapping ensures mapping[id] in MapModelClasses(table).1 {
      var i :| 0 <= i < |ids| && ids[i] == id;
      assert mapping[id] == table[i].1;
    }
  }

  /** The id list, the id -> name mapping, the inverted mapping and the name list agree. */
  ghost predicate TablesFit(ids: seq<int>, mapping: map<int, string>, inv: map<string, int>, names: seq<string>)
  {
    && (forall id :: id in mapping <==> id in ids)
    && (forall name :: name in inv <==> name in names)
    && (forall id :: id in mapping ==> mapping[id] in names)
  }

  /** Looking a name up in the inverted table and then in the mapping gives the name back. */
  lemma InvertedClassesRoundTrip(table: ClassTable)
    requires DistinctIds(table)
    ensures forall name :: name in MapModelClasses(table).0 ==>
              GetModelClasses(table).1[MapModelClasses(table).0[name]] == name
  {
  }

  // ---------------------------------------------------------------------------
  // Summary of one image (`_predict_yolov8`, `_predict_yolov5`)
  // ---------------------------------------------------------------------------

  /** `classes_mapping_dict[key]` on an id the class table lacks raises `KeyError`. */
  datatype PredictError = UnknownClassId(id: int)

  /** The first detected id, in detection order, that the mapping has no name for. */
  function FirstUnknownId(ids: seq<int>, mapping: map<int, string>): (r: Option<int>)
    ensures r.None? ==> forall x :: x in ids ==> x in mapping
    ensures (forall x :: x in ids ==> x in mapping) ==> r.None?
    ensures r.Some? ==> r.value in ids && r.value !in mapping
    // the first unknown id in detection order: every detection before it has a name
    ensures r.Some? ==> exists k :: 0 <= k < |ids| && ids[k] == r.value && forall j :: 0 <= j < k ==> ids[j] in mapping
  {
    if ids == [] then None
    else if ids[0] !in mapping then
      var first := ids[0];
      assert first in ids && first !in mapping;
      assert !(forall x :: x in ids ==> x in mapping);
      assert 0 < |ids| && ids[0] == first;
      Some(first)
    else
      var rest := FirstUnknownId(ids[1..], mapping);
      assert forall x :: x in ids[1..] ==> x in ids;
      assert rest.Some? ==> exists k :: 0 <= k < |ids| && ids[k] == rest.value && forall j :: 0 <= j < k ==> ids[j] in mapping by {
        if rest.Some? {
          var k :| 0 <= k < |ids[1..]| && ids[1..][k] == rest.value && forall j :: 0 <= j < k ==> ids[1..][j] in mapping;
          assert ids[k + 1] == rest.value;
          assert forall j :: 0 <= j < k + 1 ==> ids[j] in mapping by {
            forall j | 0 <= j < k + 1 ensures ids[j] in mapping {
              if j > 0 { assert ids[j] == ids[1..][j - 1]; }
            }
          }
        }
      }
      rest
  }

  /**
   * The yolov8 dict comprehension over `Counter(ids).items()`, visited in
   * `order`: each id's name maps to the id's count when the name is a
   * substring of `lowered`.  When two ids share a name the later one wins.
   */
  function Yolov8Entries(order: seq<int>, counter: multiset<int>, mapping: map<int, string>, lowered: string)
    : (r: map<string, nat>)
    requires forall id :: id in order ==> id in mapping
    ensures forall name :: name in r <==>
              (exists id :: id in order && mapping[id] == name) && IsSubstring(name, lowered)
    ensures forall name :: name in r ==>
              exists id :: id in order && mapping[id] == name && r[name] == counter[id]
    // the last write wins: the count is that of the last visited id with the name
    ensures forall name :: name in r ==>
              exists k :: 0 <= k < |order| && order[k] in mapping && mapping[order[k]] == name && r[name] == counter[order[k]]
                          && forall j :: k < j < |order| && order[j] in mapping ==> mapping[order[j]] != name
    decreases |order|
  {
    if order == [] then map[]
    else
      var id := order[|order| - 1];
      var prefix := Yolov8Entries(order[..|order| - 1], counter, mapping, lowered);
      assert order == order[..|order| - 1] + [id];
      if IsSubstring(mapping[id], lowered) then prefix[mapping[id] := counter[id]] else prefix
  }

  /** The multiplicity of an element is bounded by the length of the sequence. */
  lemma {:induction false} MultiplicityBound<T>(s: seq<T>, x: T)
    ensures multiset(s)[x] <= |s|
  {
    if s != [] {
      MultiplicityBound(s[1..], x);
      assert s == [s[0]] + s[1..];
    }
  }

  /**
   * `_predict_yolov8`'s summary: for every detected class whose name occurs in
   * `target.lower()`, its name and number of detections.
   */
  function SummaryYolov8(ids: seq<int>, mapping: map<int, string>, target: string)
    : (r: Result<map<string, nat>, PredictError>)
    ensures r.Failure? <==> exists id :: id in ids && id !in mapping
    ensures r.Failure? ==> FirstUnknownId(ids, mapping).Some? && r.error == UnknownClassId(FirstUnknownId(ids, mapping).value)
    ensures r.Success? ==>
              forall name :: name in r.value ==>
                IsSubstring(name, Lower(target)) && 1 <= r.value[name] <= |ids|
    ensures r.Success? ==>
              forall id :: id in ids && IsSubstring(mapping[id], Lower(target)) ==> mapping[id] in r.value
    ensures r.Success? ==>
              forall name :: name in r.value ==>
                exists id :: id in ids && mapping[id] == name && r.value[name] == multiset(ids)[id]
  {
    match FirstUnknownId(ids, mapping)
    case Some(id) => Failure(UnknownClassId(id))
    case None =>
      var entries := Yolov8Entries(FirstOccurrences(ids), multiset(ids), mapping, Lower(target));
      assert forall id :: id in ids ==> multiset(ids)[id] <= |ids| by {
        forall id | id in ids ensures multiset(ids)[id] <= |ids| {
          MultiplicityBound(ids, id);
        }
      }
      Success(entries)
  }

  /**
   * With every detected id named, the summary is the comprehension over the
   * `Counter` in first-occurrence order, so `Yolov8Entries`' last-write-wins
   * contract describes its counts.
   */
  lemma SummaryYolov8IsEntries(ids: seq<int>, mapping: map<int, string>, target: string)
    requires forall id :: id in ids ==> id in mapping
    ensures forall id :: id in FirstOccurrences(ids) ==> id in mapping
    ensures SummaryYolov8(ids, mapping, target)
            == Success(Yolov8Entries(FirstOccurrences(ids), multiset(ids), mapping, Lower(target)))
  {
  }

  /** Number of detections whose class name is `name`. */
  function DetectionsNamed(ids: seq<int>, mapping: map<int, string>, name: string): (n: nat)
    requires forall x :: x in ids ==> x in mapping
    ensures n <= |ids|
  {
    if ids == [] then 0
    else
      var first := ids[0];
      assert first in ids;
      assert forall x :: x in ids[1..] ==> x in ids;
      (if mapping[first] == name then 1 else 0) + DetectionsNamed(ids[1..], mapping, name)
  }

  /** The detections of a name whose ids are all `id` are exactly the occurrences of `id`. */
  lemma {:induction false} DetectionsNamedSingleId(ids: seq<int>, mapping: map<int, string>, id: int)
    requires forall x :: x in ids ==> x in mapping
    requires id in mapping
    requires forall x :: x in ids && mapping[x] == mapping[id] ==> x == id
    ensures DetectionsNamed(ids, mapping, mapping[id]) == multiset(ids)[id]
  {
    if ids != [] {
      assert ids == [ids[0]] + ids[1..];
      DetectionsNamedSingleId(ids[1..], mapping, id);
    }
  }

  /**
   * When no two detected ids share a name, every entry of the yolov8 summary
   * is the number of detections of that name.
   */
  lemma SummaryYolov8CountsDetections(ids: seq<int>, mapping: map<int, string>, target: string)
    requires forall id :: id in ids ==> id in mapping
    requires forall a, b :: a in ids && b in ids && mapping[a] == mapping[b] ==> a == b
    ensures SummaryYolov8(ids, mapping, target).Success?
    ensures forall name :: name in SummaryYolov8(ids, mapping, target).value ==>
              SummaryYolov8(ids, mapping, target).value[name] == DetectionsNamed(ids, mapping, name)
  {
    var r := SummaryYolov8(ids, mapping, target).value;
    forall name | name in r ensures r[name] == DetectionsNamed(ids, mapping, name) {
      var id :| id in ids && mapping[id] == name && r[name] == multiset(ids)[id];
      DetectionsNamedSingleId(ids, mapping, id);
    }
  }

  /**
   * `_predict_yolov5`'s summary: the detector's name -> count table
   * restricted to the names that occur in `target.lower()`, counts unchanged.
   */
  function SummaryYolov5(counts: map<string, nat>, target: string): (r: map<string, nat>)
    ensures forall name :: name in r <==> name in counts && IsSubstring(name, Lower(target))
    ensures forall name :: name in r ==> r[name] == counts[name]
  {
    map name | name in counts && IsSubstring(name, Lower(target)) :: counts[name]
  }

  /** Sum of the counts of a name -> count table. */
  ghost function Total(m: map<string, nat>): nat
    decreases |m|
  {
    if m == map[] then 0
    else
      var k :| k in m;
      assert |m - {k}| < |m| by { assert (m - {k}).Keys == m.Keys - {k}; }
      m[k] + Total(m - {k})
  }

  /** Any key can be taken out first when summing. */
  lemma {:induction false} TotalRemove(m: map<string, nat>, k: string)
    requires k in m
    ensures Total(m) == m[k] + Total(m - {k})
    decreases |m|
  {
    var j :| j in m && Total(m) == m[j] + Total(m - {j});
    if j != k {
      assert (m - {j}).Keys == m.Keys - {j};
      assert (m - {k}).Keys == m.Keys - {k};
      TotalRemove(m - {j}, k);
      TotalRemove(m - {k}, j);
      assert m - {j} - {k} == m - {k} - {j};
    }
  }

  /** A sub-table (same counts on fewer names) sums to no more. */
  lemma {:induction false} TotalOfSubTable(a: map<string, nat>, b: map<string, nat>)
    requires a.Keys <= b.Keys
    requires forall k :: k in a ==> a[k] == b[k]
    ensures Total(a) <= Total(b)
    decreases |b|
  {
    if b != map[] {
      var k :| k in b;
      assert (b - {k}).Keys == b.Keys - {k};
      TotalRemove(b, k);
      if k in a {
        assert (a - {k}).Keys == a.Keys - {k};
        TotalRemove(a, k);
        TotalOfSubTable(a - {k}, b - {k});
      } else {
        assert a - {k} == a;
        TotalOfSubTable(a, b - {k});
      }
    }
  }

  /** Filtering by the target never increases the total count. */
  lemma SummaryYolov5Total(counts: map<string, nat>, target: string)
    ensures Total(SummaryYolov5(counts, target)) <= Total(counts)
  {
    TotalOfSubTable(SummaryYolov5(counts, target), counts);
  }
  /** Sum of the `Counter` values of the ids in `order`. */
  function SumOver(order: seq<int>, counter: multiset<int>): nat
    decreases |order|
  {
    if order == [] then 0
    else SumOver(order[..|order| - 1], counter) + counter[order[|order| - 1]]
  }

  /** Overwriting one entry with `c` raises the total by at most `c`. */
  lemma TotalUpdateBound(m: map<string, nat>, name: string, c: nat)
    ensures Total(m[name := c]) <= Total(m) + c
  {
    TotalRemove(m[name := c], name);
    assert m[name := c] - {name} == m - {name};
    if name in m {
      TotalRemove(m, name);
    } else {
      assert m - {name} == m;
    }
  }

  /** The comprehension's entries add up to no more than the counts of the ids it visits. */
  lemma {:induction false} EntriesTotal(order: seq<int>, counter: multiset<int>, mapping: map<int, string>, lowered: string)
    requires forall id :: id in order ==> id in mapping
    ensures Total(Yolov8Entries(order, counter, mapping, lowered)) <= SumOver(order, counter)
    decreases |order|
  {
    if order != [] {
      var init := order[..|order| - 1];
      var id := order[|order| - 1];
      assert forall x :: x in init ==> x in order;
      EntriesTotal(init, counter, mapping, lowered);
      var prefix := Yolov8Entries(init, counter, mapping, lowered);
      if IsSubstring(mapping[id], lowered) {
        TotalUpdateBound(prefix, mapping[id], counter[id]);
      }
    }
  }

  /** Adding one detection of `x` raises the sum over a repeat-free `order` by one exactly when `x` is in it. */
  lemma {:induction false} SumOverAdd(order: seq<int>, m: multiset<int>, x: int)
    requires forall i, j :: 0 <= i < j < |order| ==> order[i] != order[j]
    ensures SumOver(order, m + multiset{x}) == SumOver(order, m) + (if x in order then 1 else 0)
    decreases |order|
  {
    if order != [] {
      var init := order[..|order| - 1];
      var last := order[|order| - 1];
      assert order == init + [last];
      SumOverAdd(init, m, x);
      assert x in order <==> x in init || x == last;
      assert last !in init;
    }
  }

  /** Summed over the distinct ids, the `Counter` values add up to the number of detections. */
  lemma {:induction false} SumOverCounter(ids: seq<int>)
    ensures SumOver(FirstOccurrences(ids), multiset(ids)) == |ids|
    decreases |ids|
  {
    if ids != [] {
      var init := ids[..|ids| - 1];
      var x := ids[|ids| - 1];
      var prefix := FirstOccurrences(init);
      assert ids == init + [x];
      assert multiset(ids) == multiset(init) + multiset{x};
      SumOverCounter(init);
      SumOverAdd(prefix, multiset(init), x);
      if x !in prefix {
        var order := prefix + [x];
        assert FirstOccurrences(ids) == order;
        assert order[..|order| - 1] == prefix;
        assert x !in init;
      }
    }
  }

  /** On the yolov8 path the filtered counts add up to no more than the number of detections. */
  lemma SummaryYolov8Total(ids: seq<int>, mapping: map<int, string>, target: string)
    requires SummaryYolov8(ids, mapping, target).Success?
    ensures Total(SummaryYolov8(ids, mapping, target).value) <= |ids|
  {
    assert forall id :: id in ids ==> id in mapping;
    SummaryYolov8IsEntries(ids, mapping, target);
    EntriesTotal(FirstOccurrences(ids), multiset(ids), mapping, Lower(target));
    SumOverCounter(ids);
  }


  // ---------------------------------------------------------------------------
  // Prediction (`predict`)
  // ---------------------------------------------------------------------------

  /**
   * What the detector reports for one image at a given confidence: the
   * yolov8 path reads the class id of every box (`boxes.cls`), the yolov5
   * path the per-name counts of its detection table (`value_counts("name")`).
   */
  datatype Inference = Inference(boxClassIds: seq<int>, nameCounts: map<string, nat>)

  /** The summary `predict` returns, once the detector has produced `inference`. */
  function PredictSummary(family: string, mapping: map<int, string>, inference: Inference, target: string)
    : (r: Result<map<string, nat>, PredictError>)
    ensures family == "yolov8" ==> r == SummaryYolov8(inference.boxClassIds, mapping, target)
    ensures family != "yolov8" ==> r == Success(SummaryYolov5(inference.nameCounts, target))
  {
    if family == "yolov8" then SummaryYolov8(inference.boxClassIds, mapping, target)
    else Success(SummaryYolov5(inference.nameCounts, target))
  }

  /** Whichever path runs, every name in the summary occurs in `target.lower()`. */
  lemma PredictSummaryMatchesTarget(family: string, mapping: map<int, string>, inference: Inference, target: string)
    ensures PredictSummary(family, mapping, inference, target).Success? ==>
              forall name :: name in PredictSummary(family, mapping, inference, target).value ==>
                IsSubstring(name, Lower(target))
  {
  }

  /** A loaded `YoloModel`. */
  class YoloModel {
    var modelFamily: string
    var modelVersion: string
    var modelClasses: seq<int>
    var classesMappingDict: map<int, string>
    var modelClassesInvDict: map<string, int>
    var classNames: seq<string>
    /** The threshold installed on the detector (`model.conf` / `model.overrides["conf"]`); unset after loading. */
    var confidence: Option<real>

    ghost predicate Valid()
      reads this
    {
      && modelFamily in AcceptedModelFamilies
      && TablesFit(modelClasses, classesMappingDict, modelClassesInvDict, classNames)
      && (confidence.Some? ==> 0.0 < confidence.value <= 1.0)
    }

    /** The constructor once `_load_model` has accepted the family and version and loaded `table`. */
    constructor FromLoaded(family: string, version: string, table: ClassTable)
      requires family in AcceptedModelFamilies
      requires DistinctIds(table)
      ensures Valid()
      ensures modelFamily == family && modelVersion == version
      ensures (modelClasses, classesMappingDict) == GetModelClasses(table)
      ensures (modelClassesInvDict, classNames) == MapModelClasses(table)
      ensures confidence == None
    {
      modelFamily := family;
      modelVersion := version;
      var classes := GetModelClasses(table);
      var inverted := MapModelClasses(table);
      modelClasses, classesMappingDict := classes.0, classes.1;
      modelClassesInvDict, classNames := inverted.0, inverted.1;
      confidence := None;
    }

    /**
     * `YoloModel(model_family, model_version)`: validates the family and the
     * version and, only if both are accepted, loads a model whose class table
     * is `table`.
     */
    static method Load(family: string, version: string, hubVersions: seq<string>, table: ClassTable)
      returns (r: Result<YoloModel, ModelError>)
      requires DistinctIds(table)
      ensures CheckModel(family, version, hubVersions).Fail? ==>
                r == Failure(CheckModel(family, version, hubVersions).error)
      ensures CheckModel(family, version, hubVersions).Pass? ==>
                && r.Success? && fresh(r.value) && r.value.Valid()
                && r.value.modelFamily == family && r.value.modelVersion == version
                && (r.value.modelClasses, r.value.classesMappingDict) == GetModelClasses(table)
                && (r.value.modelClassesInvDict, r.value.classNames) == MapModelClasses(table)
                && r.value.confidence == None
    {
      var check := CheckModel(family, version, hubVersions);
      if check.Fail? {
        return Failure(check.error);
      }
      var model := new YoloModel.FromLoaded(family, version, table);
      r := Success(model);
    }

    /**
     * `predict`: normalises the confidence, installs it on the detector, runs
     * the detector (`detector`) at that confidence and builds the summary on
     * the path of the model's family.
     */
    method Predict(detector: real -> Inference, target: string, requested: Option<real>)
      returns (r: Result<map<string, nat>, PredictError>)
      requires Valid()
      modifies this`confidence
      ensures Valid()
      ensures confidence == Some(NormalizeConfidence(requested))
      ensures r == PredictSummary(modelFamily, classesMappingDict, detector(NormalizeConfidence(requested)), target)
      ensures modelFamily == "yolov8" && r.Success? ==> forall name :: name in r.value ==> name in classNames
    {
      var conf := NormalizeConfidence(requested);
      confidence := Some(conf);
      r := PredictSummary(modelFamily, classesMappingDict, detector(conf), target);
    }

    /**
     * `predict(image)` with the default arguments: target `"person"` and
     * confidence 0.45, which the range check keeps.
     */
    method PredictWithDefaults(detector: real -> Inference) returns (r: Result<map<string, nat>, PredictError>)
      requires Valid()
      modifies this`confidence
      ensures Valid()
      ensures confidence == Some(Defaults.ModelConfidenceValue)
      ensures r == PredictSummary(modelFamily, classesMappingDict, detector(Defaults.ModelConfidenceValue),
                                  Defaults.ModelTargetClass)
      ensures r.Success? ==> forall name :: name in r.value ==> IsSubstring(name, "person")
    {
      r := Predict(detector, Defaults.ModelTargetClass, Some(Defaults.ModelConfidenceValue));
      LowerFixesLowercase(Defaults.ModelTargetClass);
      PredictSummaryMatchesTarget(modelFamily, classesMappingDict, detector(Defaults.ModelConfidenceValue),
                                  Defaults.ModelTargetClass);
    }
  }
}
