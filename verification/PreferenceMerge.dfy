// Saving an account preference: the three-way merge of the stored document,
// the baseline an editor started from and the editor's document, and the
// removal of listed fields (cluster/cluster_service.py:
// merge_monitor_preference, remove_monitor_fields, account_preference).

module PreferenceMerge {
  import opened Options

  // Lists are atomic for the merge, so a list is an atom like a number. Two
  // values have the same canonical text exactly when they are equal.
  datatype Json = Atom(text: string) | Obj(fields: map<string, Json>)

  type Path = seq<string>

  function Get(fields: map<string, Json>, key: string): Option<Json>
  {
    if key in fields then Some(fields[key]) else None
  }

  // The document the merge starts from.
  function Start(current: Option<Json>, base: Json): map<string, Json>
    requires base.Obj?
  {
    if current.Some? && current.value.Obj? then current.value.fields else base.fields
  }

  function Merge(current: Option<Json>, base: Json, edited: Json, partial: bool): (r: Json)
    requires base.Obj? && edited.Obj?
    ensures r.Obj?
    decreases edited, 1
  {
    Obj(map k | k in Start(current, base).Keys + edited.fields.Keys && Entry(current, base, edited, partial, k).Some? ::
          Entry(current, base, edited, partial, k).value)
  }

  // What the merged document has under a key.
  function Entry(current: Option<Json>, base: Json, edited: Json, partial: bool, k: string): Option<Json>
    requires base.Obj? && edited.Obj?
    decreases edited, 0
  {
    var c := Get(Start(current, base), k);
    if k !in edited.fields then (if partial || k !in base.fields then c else None)
    else if k !in base.fields then Some(edited.fields[k])
    else
      var b, e := base.fields[k], edited.fields[k];
      if b == e then c
      else if b.Obj? && e.Obj? then Some(Merge(c, b, e, partial))
      else Some(e)
  }

  lemma MergeAt(current: Option<Json>, base: Json, edited: Json, partial: bool, k: string)
    requires base.Obj? && edited.Obj?
    ensures Get(Merge(current, base, edited, partial).fields, k) == Entry(current, base, edited, partial, k)
  {
  }

  lemma SameFields(a: Json, b: Json)
    requires a.Obj? && b.Obj? && forall k :: Get(a.fields, k) == Get(b.fields, k)
    ensures a == b
  {
    assert forall k :: k in a.fields <==> k in b.fields by {
      forall k ensures k in a.fields <==> k in b.fields {
        assert Get(a.fields, k) == Get(b.fields, k);
      }
    }
    assert forall k :: k in a.fields ==> a.fields[k] == b.fields[k] by {
      forall k | k in a.fields ensures a.fields[k] == b.fields[k] {
        assert Get(a.fields, k) == Get(b.fields, k);
      }
    }
    assert a.fields == b.fields;
  }

  // The part of a merge that the loop has done: keys in `done` are settled.
  ghost predicate Settled(result: map<string, Json>, current: Option<Json>, base: Json, edited: Json, partial: bool,
                          done: set<string>)
    requires base.Obj? && edited.Obj?
  {
    forall k :: Get(result, k) == if k in done then Entry(current, base, edited, partial, k)
                                  else Get(Start(current, base), k)
  }

  lemma SettleOne(before: map<string, Json>, after: map<string, Json>, current: Option<Json>, base: Json, edited: Json,
                  partial: bool, done: set<string>, key: string)
    requires base.Obj? && edited.Obj?
    requires Settled(before, current, base, edited, partial, done)
    requires forall k :: k != key ==> Get(after, k) == Get(before, k)
    requires Get(after, key) == Entry(current, base, edited, partial, key)
    ensures Settled(after, current, base, edited, partial, done + {key})
  {
    hide Entry;
  }

  lemma AllSettled(result: map<string, Json>, current: Option<Json>, base: Json, edited: Json, partial: bool,
                   done: set<string>)
    requires base.Obj? && edited.Obj?
    requires Settled(result, current, base, edited, partial, done)
    requires done == if partial then edited.fields.Keys else base.fields.Keys + edited.fields.Keys
    ensures Obj(result) == Merge(current, base, edited, partial)
  {
    forall k ensures Get(result, k) == Get(Merge(current, base, edited, partial).fields, k) {
      MergeAt(current, base, edited, partial, k);
    }
    SameFields(Obj(result), Merge(current, base, edited, partial));
  }

  method MergePreference(current: Option<Json>, base: Json, edited: Json, partial: bool) returns (r: Json)
    requires base.Obj? && edited.Obj?
    ensures r == Merge(current, base, edited, partial)
    decreases edited, 1
  {
    hide Merge;
    hide Settled;
    hide Entry;
    var result := if current.Some? && current.value.Obj? then current.value.fields else base.fields;
    var keys := if partial then edited.fields.Keys else base.fields.Keys + edited.fields.Keys;
    var rest := keys;
    NothingSettled(current, base, edited, partial);
    assert keys - rest == {};
    while rest != {}
      invariant rest <= keys
      invariant Settled(result, current, base, edited, partial, keys - rest)
      decreases |rest|
    {
      var key :| key in rest;
      StillStart(result, current, base, edited, partial, keys - rest, key);
      var after := MergeKey(result, current, base, edited, partial, key);
      SettleOne(result, after, current, base, edited, partial, keys - rest, key);
      assert keys - rest + {key} == keys - (rest - {key});
      result, rest := after, rest - {key};
    }
    assert keys - rest == keys;
    AllSettled(result, current, base, edited, partial, keys);
    r := Obj(result);
  }

  // One turn of the loop.
  method MergeKey(result: map<string, Json>, current: Option<Json>, base: Json, edited: Json, partial: bool,
                  key: string)
    returns (after: map<string, Json>)
    requires base.Obj? && edited.Obj?
    requires key in edited.fields || (!partial && key in base.fields)
    requires Get(result, key) == Get(Start(current, base), key)
    ensures Get(after, key) == Entry(current, base, edited, partial, key)
    ensures forall k :: k != key ==> Get(after, k) == Get(result, k)
    decreases edited, 0
  {
    hide Merge;
    after := result;
    if key !in edited.fields {
      after := result - {key};
    } else if key !in base.fields {
      after := result[key := edited.fields[key]];
    } else if base.fields[key] != edited.fields[key] {
      if base.fields[key].Obj? && edited.fields[key].Obj? {
        var merged := MergePreference(Get(result, key), base.fields[key], edited.fields[key], partial);
        after := result[key := merged];
      } else {
        after := result[key := edited.fields[key]];
      }
    }
  }

  lemma NothingSettled(current: Option<Json>, base: Json, edited: Json, partial: bool)
    requires base.Obj? && edited.Obj?
    ensures Settled(Start(current, base), current, base, edited, partial, {})
  {
  }

  lemma StillStart(result: map<string, Json>, current: Option<Json>, base: Json, edited: Json, partial: bool,
                   done: set<string>, key: string)
    requires base.Obj? && edited.Obj? && Settled(result, current, base, edited, partial, done) && key !in done
    ensures Get(result, key) == Get(Start(current, base), key)
  {
  }

  // ---------- Laws ----------

  // Saving onto the unchanged baseline stores the editor's document.
  lemma {:induction false} SaveOntoBaseline(current: Option<Json>, base: Json, edited: Json)
    requires base.Obj? && edited.Obj?
    requires current == Some(base) || current.None? || current.value.Atom?
    ensures Merge(current, base, edited, false) == edited
    decreases edited
  {
    forall k ensures Get(Merge(current, base, edited, false).fields, k) == Get(edited.fields, k) {
      MergeAt(current, base, edited, false, k);
      if k in base.fields && k in edited.fields && base.fields[k].Obj? && edited.fields[k].Obj? {
        SaveOntoBaseline(Some(base.fields[k]), base.fields[k], edited.fields[k]);
      }
    }
    SameFields(Merge(current, base, edited, false), edited);
  }

  // Saving without an edit stores what was stored.
  lemma SaveWithoutEdit(current: Json, base: Json, partial: bool)
    requires base.Obj? && current.Obj?
    ensures Merge(Some(current), base, base, partial) == current
  {
    forall k ensures Get(Merge(Some(current), base, base, partial).fields, k) == Get(current.fields, k) {
      MergeAt(Some(current), base, base, partial, k);
    }
    SameFields(Merge(Some(current), base, base, partial), current);
  }

  // ---------- Path by path ----------

  function Lookup(v: Json, path: Path): Option<Json>
  {
    if path == [] then Some(v)
    else if v.Obj? && path[0] in v.fields then Lookup(v.fields[path[0]], path[1..])
    else None
  }

  // What an edit says about a path: Kept when the editor left it as it was,
  // Decided when the editor added, removed or replaced it or something above
  // it, Inside when it is an object with a change below it.
  datatype Verdict = Kept | Decided | Inside

  function Says(base: Json, edited: Json, path: Path): Verdict
    requires base.Obj? && edited.Obj?
    decreases |path|
  {
    if path == [] then (if base == edited then Kept else Inside)
    else
      var k := path[0];
      if Get(base.fields, k) == Get(edited.fields, k) then Kept
      else if k in base.fields && k in edited.fields && base.fields[k].Obj? && edited.fields[k].Obj?
      then Says(base.fields[k], edited.fields[k], path[1..])
      else Decided
  }

  // A decided path has the editor's value or absence; a stored value the
  // editor kept survives; above a change there is an object.
  lemma {:induction false} MergePathwise(current: Option<Json>, base: Json, edited: Json, path: Path)
    requires base.Obj? && edited.Obj?
    ensures var r := Merge(current, base, edited, false);
      match Says(base, edited, path)
      case Decided => Lookup(r, path) == Lookup(edited, path)
      case Kept => (current.Some? && current.value.Obj? && Lookup(current.value, path).Some?)
                   ==> Lookup(r, path) == Lookup(current.value, path)
      case Inside => Lookup(r, path).Some? && Lookup(r, path).value.Obj?
    decreases |path|
  {
    if path == [] {
      if base == edited && current.Some? && current.value.Obj? {
        SaveWithoutEdit(current.value, base, false);
      }
    } else {
      var k := path[0];
      MergeAt(current, base, edited, false, k);
      if Get(base.fields, k) != Get(edited.fields, k) && k in base.fields && k in edited.fields &&
         base.fields[k].Obj? && edited.fields[k].Obj? {
        MergePathwise(Get(Start(current, base), k), base.fields[k], edited.fields[k], path[1..]);
      }
    }
  }

  // ---------- Two editors of one baseline ----------

  // Under every key, one of the two left the baseline alone, or both say the
  // same, or all three are objects that are compatible in turn.
  ghost predicate Compatible(base: Json, one: Json, two: Json)
    requires base.Obj? && one.Obj? && two.Obj?
    decreases one
  {
    forall k :: CompatibleAt(base, one, two, k)
  }

  ghost predicate CompatibleAt(base: Json, one: Json, two: Json, k: string)
    requires base.Obj? && one.Obj? && two.Obj?
    decreases one, 0
  {
    var b, x, y := Get(base.fields, k), Get(one.fields, k), Get(two.fields, k);
    || x == b || y == b || x == y
    || (b.Some? && x.Some? && y.Some? && b.value.Obj? && x.value.Obj? && y.value.Obj?
        && Compatible(b.value, x.value, y.value))
  }

  lemma {:induction false} AgreeingIsCompatible(base: Json, one: Json)
    requires base.Obj? && one.Obj?
    ensures Compatible(base, one, one)
  {
  }

  lemma CompatibleSymmetric(base: Json, one: Json, two: Json)
    requires base.Obj? && one.Obj? && two.Obj? && Compatible(base, one, two)
    ensures Compatible(base, two, one)
    decreases one
  {
    forall k ensures CompatibleAt(base, two, one, k) {
      assert CompatibleAt(base, one, two, k);
      if k in base.fields && k in one.fields && k in two.fields && base.fields[k].Obj? && one.fields[k].Obj? &&
         two.fields[k].Obj? && Compatible(base.fields[k], one.fields[k], two.fields[k]) {
        CompatibleSymmetric(base.fields[k], one.fields[k], two.fields[k]);
      }
    }
  }

  // What the merged document has under a key, when the document merged into
  // is an object.
  lemma EntryOf(current: Json, base: Json, edited: Json, k: string)
    requires current.Obj? && base.Obj? && edited.Obj?
    ensures Get(Merge(Some(current), base, edited, false).fields, k) ==
      var c, b, e := Get(current.fields, k), Get(base.fields, k), Get(edited.fields, k);
      if b == e then c
      else if b.Some? && e.Some? && b.value.Obj? && e.value.Obj? then Some(Merge(c, b.value, e.value, false))
      else e
  {
    MergeAt(Some(current), base, edited, false, k);
  }

  // Compatible edits commute on every stored document.
  lemma {:induction false} CompatibleEditsCommute(current: Option<Json>, base: Json, one: Json, two: Json)
    requires base.Obj? && one.Obj? && two.Obj? && Compatible(base, one, two)
    ensures Merge(Some(Merge(current, base, one, false)), base, two, false) ==
            Merge(Some(Merge(current, base, two, false)), base, one, false)
    decreases one
  {
    var m1, m2 := Merge(current, base, one, false), Merge(current, base, two, false);
    var r1, r2 := Merge(Some(m1), base, two, false), Merge(Some(m2), base, one, false);
    forall k ensures Get(r1.fields, k) == Get(r2.fields, k) {
      assert CompatibleAt(base, one, two, k);
      MergeAt(current, base, one, false, k);
      MergeAt(current, base, two, false, k);
      EntryOf(m1, base, two, k);
      EntryOf(m2, base, one, k);
      var b, x, y := Get(base.fields, k), Get(one.fields, k), Get(two.fields, k);
      if x != b && y != b && x != y {
        CompatibleEditsCommute(Get(Start(current, base), k), b.value, x.value, y.value);
      }
    }
    SameFields(r1, r2);
  }

  // Exactly the compatible edits commute: starting from the baseline, saving
  // one after the other gives the same document in either order if and only if
  // the edits are compatible.
  lemma {:induction false} CommuteOnlyIfCompatible(base: Json, one: Json, two: Json)
    requires base.Obj? && one.Obj? && two.Obj?
    ensures Merge(Some(one), base, two, false) == Merge(Some(two), base, one, false) <==> Compatible(base, one, two)
    decreases one
  {
    SaveOntoBaseline(Some(base), base, one);
    SaveOntoBaseline(Some(base), base, two);
    if Compatible(base, one, two) {
      CompatibleEditsCommute(Some(base), base, one, two);
    }
    if Merge(Some(one), base, two, false) == Merge(Some(two), base, one, false) {
      forall k ensures CompatibleAt(base, one, two, k) {
        CommuteAt(base, one, two, k);
      }
    }
  }

  lemma {:induction false} CommuteAt(base: Json, one: Json, two: Json, k: string)
    requires base.Obj? && one.Obj? && two.Obj?
    requires Merge(Some(one), base, two, false) == Merge(Some(two), base, one, false)
    ensures CompatibleAt(base, one, two, k)
    decreases one, 0
  {
    EntryOf(one, base, two, k);
    EntryOf(two, base, one, k);
    var b, x, y := Get(base.fields, k), Get(one.fields, k), Get(two.fields, k);
    if x != b && y != b && x != y && b.Some? && b.value.Obj? && x.Some? && x.value.Obj? && y.Some? && y.value.Obj? {
      CommuteOnlyIfCompatible(b.value, x.value, y.value);
    }
  }

  // When the edits are compatible, what either editor decided is in the
  // result, whatever was stored before.
  lemma {:induction false} FirstEditSurvives(current: Option<Json>, base: Json, one: Json, two: Json, path: Path)
    requires base.Obj? && one.Obj? && two.Obj? && Compatible(base, one, two)
    requires Says(base, one, path) == Decided
    ensures Lookup(Merge(Some(Merge(current, base, one, false)), base, two, false), path) == Lookup(one, path)
    decreases |path|
  {
    var k := path[0];
    var m := Merge(current, base, one, false);
    assert CompatibleAt(base, one, two, k);
    MergeAt(current, base, one, false, k);
    EntryOf(m, base, two, k);
    var b, x, y := Get(base.fields, k), Get(one.fields, k), Get(two.fields, k);
    if b.Some? && x.Some? && b.value.Obj? && x.value.Obj? {
      if y == b {
        MergePathwise(Get(Start(current, base), k), b.value, x.value, path[1..]);
      } else {
        if x == y {
          AgreeingIsCompatible(b.value, x.value);
        }
        FirstEditSurvives(Get(Start(current, base), k), b.value, x.value, y.value, path[1..]);
      }
    }
  }

  lemma SecondEditSurvives(current: Option<Json>, base: Json, one: Json, two: Json, path: Path)
    requires base.Obj? && one.Obj? && two.Obj? && Says(base, two, path) == Decided
    ensures Lookup(Merge(Some(Merge(current, base, one, false)), base, two, false), path) == Lookup(two, path)
  {
    hide Merge;
    hide Says;
    hide Lookup;
    MergePathwise(Some(Merge(current, base, one, false)), base, two, path);
  }

  // What neither editor touched keeps its stored value.
  lemma UntouchedSurvives(current: Json, base: Json, one: Json, two: Json, path: Path)
    requires current.Obj? && base.Obj? && one.Obj? && two.Obj?
    requires Says(base, one, path) == Kept && Says(base, two, path) == Kept && Lookup(current, path).Some?
    ensures Lookup(Merge(Some(Merge(Some(current), base, one, false)), base, two, false), path) == Lookup(current, path)
  {
    hide Merge;
    hide Says;
    hide Lookup;
    var m := Merge(Some(current), base, one, false);
    MergePathwise(Some(current), base, one, path);
    MergePathwise(Some(m), base, two, path);
  }

  // A changed object has a decided path.
  lemma {:induction false} ChangeIsDecidedSomewhere(base: Json, edited: Json) returns (path: Path)
    requires base.Obj? && edited.Obj? && base != edited
    ensures Says(base, edited, path) == Decided
    decreases edited
  {
    if forall k :: Get(base.fields, k) == Get(edited.fields, k) {
      SameFields(base, edited);
    }
    var k :| Get(base.fields, k) != Get(edited.fields, k);
    if k in base.fields && k in edited.fields && base.fields[k].Obj? && edited.fields[k].Obj? {
      var rest := ChangeIsDecidedSomewhere(base.fields[k], edited.fields[k]);
      path := [k] + rest;
      assert path[1..] == rest;
    } else {
      path := [k];
    }
  }

  // Edits that are not compatible decide a common path. So two edits that
  // decide no path in common commute, and both survive.
  lemma {:induction false} ConflictHasPath(base: Json, one: Json, two: Json) returns (path: Path)
    requires base.Obj? && one.Obj? && two.Obj? && !Compatible(base, one, two)
    ensures Says(base, one, path) == Decided && Says(base, two, path) == Decided
    decreases one
  {
    var k :| !CompatibleAt(base, one, two, k);
    var b, x, y := Get(base.fields, k), Get(one.fields, k), Get(two.fields, k);
    var rest := [];
    if b.Some? && b.value.Obj? {
      if x.Some? && x.value.Obj? && y.Some? && y.value.Obj? {
        rest := ConflictHasPath(b.value, x.value, y.value);
      } else if x.Some? && x.value.Obj? {
        rest := ChangeIsDecidedSomewhere(b.value, x.value);
      } else if y.Some? && y.value.Obj? {
        rest := ChangeIsDecidedSomewhere(b.value, y.value);
      }
    }
    path := [k] + rest;
    assert path[1..] == rest;
  }

  lemma DisjointEditsCommute(current: Option<Json>, base: Json, one: Json, two: Json)
    requires base.Obj? && one.Obj? && two.Obj?
    requires forall path :: Says(base, one, path) == Decided ==> Says(base, two, path) != Decided
    ensures Compatible(base, one, two)
    ensures Merge(Some(Merge(current, base, one, false)), base, two, false) ==
            Merge(Some(Merge(current, base, two, false)), base, one, false)
  {
    if !Compatible(base, one, two) {
      var path := ConflictHasPath(base, one, two);
    }
    CompatibleEditsCommute(current, base, one, two);
  }

  // ---------- Removing fields ----------

  // Paths are not empty: a removal request with an empty path is refused.
  type FieldPath = p: Path | |p| > 0 witness ["field"]

  function RemovePath(v: Json, path: FieldPath): Json
    decreases |path|
  {
    if v.Atom? || path[0] !in v.fields then v
    else if |path| == 1 then Obj(v.fields - {path[0]})
    else Obj(v.fields[path[0] := RemovePath(v.fields[path[0]], path[1..])])
  }

  // The document without the fields at a set of paths.
  ghost function Without(v: Json, gone: iset<Path>): Json
  {
    if v.Atom? then v
    else Obj(map k | k in v.fields && [k] !in gone :: Without(v.fields[k], Below(gone, k)))
  }

  ghost function Below(gone: iset<Path>, k: string): iset<Path>
  {
    iset p: Path | [k] + p in gone && p != []
  }

  lemma {:induction false} WithoutNothing(v: Json, gone: iset<Path>)
    requires forall p :: p in gone ==> p == []
    ensures Without(v, gone) == v
  {
    if v.Obj? {
      forall k | k in v.fields ensures Without(v.fields[k], Below(gone, k)) == v.fields[k] {
        WithoutNothing(v.fields[k], Below(gone, k));
      }
      assert Without(v, gone).fields == v.fields;
    }
  }

  // What is left after a removal: exactly the paths of which no beginning was
  // removed, with their values, an object staying an object.
  ghost predicate BeginsGone(gone: iset<Path>, path: Path)
  {
    exists n :: 0 < n <= |path| && path[..n] in gone
  }

  lemma {:induction false} WithoutPathwise(v: Json, gone: iset<Path>, path: Path)
    ensures var left := Lookup(Without(v, gone), path);
      if BeginsGone(gone, path) then left.None? else Reads(left, Lookup(v, path))
    decreases |path|
  {
    if path == [] {
      assert !BeginsGone(gone, path);
    } else {
      var k := path[0];
      BelowBegins(gone, path);
      hide BeginsGone; hide Reads; hide Without; hide Lookup; hide Below;
      LookupStep(v, path);
      LookupStep(Without(v, gone), path);
      NothingReads();
      WithoutField(v, gone, k);
      if v.Obj? && k in v.fields && [k] !in gone {
        WithoutPathwise(v.fields[k], Below(gone, k), path[1..]);
      }
    }
  }

  lemma WithoutField(v: Json, gone: iset<Path>, k: string)
    ensures v.Atom? ==> Without(v, gone) == v
    ensures v.Obj? ==> Without(v, gone).Obj?
    ensures v.Obj? ==> (k in Without(v, gone).fields <==> k in v.fields && [k] !in gone)
    ensures v.Obj? && k in v.fields && [k] !in gone ==>
      Without(v, gone).fields[k] == Without(v.fields[k], Below(gone, k))
  {
  }

  // The same value, as far as it is one: an object reads as an object.
  predicate Reads(left: Option<Json>, v: Option<Json>)
  {
    match v
    case None => left.None?
    case Some(Atom(text)) => left == Some(Atom(text))
    case Some(Obj(_)) => left.Some? && left.value.Obj?
  }

  lemma NothingReads()
    ensures Reads(None, None)
  {
  }

  lemma LookupStep(v: Json, path: Path)
    requires path != []
    ensures Lookup(v, path) == if v.Obj? && path[0] in v.fields then Lookup(v.fields[path[0]], path[1..]) else None
  {
  }

  lemma BelowBegins(gone: iset<Path>, path: Path)
    requires path != []
    ensures BeginsGone(gone, path) <==> [path[0]] in gone || BeginsGone(Below(gone, path[0]), path[1..])
  {
    var k, rest := path[0], path[1..];
    assert path[..1] == [k];
    forall m | 0 < m <= |rest| ensures path[..m + 1] in gone <==> rest[..m] in Below(gone, k) {
      assert path[..m + 1] == [k] + rest[..m];
    }
    if BeginsGone(gone, path) && [k] !in gone {
      var n :| 0 < n <= |path| && path[..n] in gone;
      assert n - 1 + 1 == n && rest[..n - 1] in Below(gone, k);
    }
    if BeginsGone(Below(gone, k), rest) {
      var m :| 0 < m <= |rest| && rest[..m] in Below(gone, k);
      assert path[..m + 1] in gone;
    }
  }

  lemma {:induction false} RemoveThenWithout(v: Json, path: FieldPath, gone: iset<Path>)
    ensures Without(RemovePath(v, path), gone) == Without(v, gone + iset{path})
    decreases |path|, v
  {
    if v.Obj? {
      var one, both := Without(RemovePath(v, path), gone), Without(v, gone + iset{path});
      forall k ensures Get(one.fields, k) == Get(both.fields, k) {
        if k in v.fields && [k] !in gone && path != [k] {
          if k == path[0] {
            RemoveThenWithout(v.fields[k], path[1..], Below(gone, k));
            assert path == [k] + path[1..];
            assert forall p :: [k] + p == path ==> p == path[1..];
            assert Below(gone, k) + iset{path[1..]} == Below(gone + iset{path}, k);
          } else {
            assert Below(gone, k) == Below(gone + iset{path}, k);
          }
        }
      }
      SameFields(one, both);
    }
  }

  ghost function Listed(paths: seq<FieldPath>): iset<Path>
  {
    iset p: Path | p in paths
  }

  // Removing a list of paths gives the document without the fields at those
  // paths, so neither the order of the list nor its repetitions matter.
  method RemoveMonitorFields(value: Json, paths: seq<FieldPath>) returns (r: Json)
    ensures r == Without(value, Listed(paths))
  {
    r := value;
    for i := 0 to |paths|
      invariant Without(r, Listed(paths[i..])) == Without(value, Listed(paths))
    {
      RemoveThenWithout(r, paths[i], Listed(paths[i + 1..]));
      assert Listed(paths[i..]) == Listed(paths[i + 1..]) + iset{paths[i]};
      r := RemovePath(r, paths[i]);
    }
    WithoutNothing(r, Listed(paths[|paths|..]));
  }

  // ---------- Partial saves ----------

  // The editor's document leaves the path out, at its end or above it.
  predicate LeavesOut(base: Json, edited: Json, path: Path)
    requires base.Obj? && edited.Obj?
    decreases |path|
  {
    path != []
    && if path[0] !in edited.fields then true
       else path[0] in base.fields && base.fields[path[0]].Obj? && edited.fields[path[0]].Obj?
            && LeavesOut(base.fields[path[0]], edited.fields[path[0]], path[1..])
  }

  // A partial save keeps what is stored at every path it leaves out.
  lemma {:induction false} PartialKeepsTheRest(current: Json, base: Json, edited: Json, path: Path)
    requires current.Obj? && base.Obj? && edited.Obj? && LeavesOut(base, edited, path) && Lookup(current, path).Some?
    ensures Lookup(Merge(Some(current), base, edited, true), path) == Lookup(current, path)
    decreases |path|
  {
    var k := path[0];
    MergeAt(Some(current), base, edited, true, k);
    if k in edited.fields && base.fields[k] != edited.fields[k] {
      if current.fields[k].Obj? {
        PartialKeepsTheRest(current.fields[k], base.fields[k], edited.fields[k], path[1..]);
      }
    }
  }

  // The paths of the fields that the editor dropped from the baseline.
  ghost function Dropped(base: Json, edited: Json): iset<Path>
    requires base.Obj? && edited.Obj?
  {
    iset p: Path | IsDropped(base, edited, p)
  }

  predicate IsDropped(base: Json, edited: Json, path: Path)
    requires base.Obj? && edited.Obj?
    decreases |path|
  {
    path != [] && path[0] in base.fields
    && if path[0] !in edited.fields then |path| == 1
       else base.fields[path[0]].Obj? && edited.fields[path[0]].Obj?
            && IsDropped(base.fields[path[0]], edited.fields[path[0]], path[1..])
  }

  // A partial save keeps what the editor left out, so with the dropped fields
  // as removal list it stores what a full save stores.
  lemma {:induction false} PartialWithRemovalsIsFull(current: Option<Json>, base: Json, edited: Json)
    requires base.Obj? && edited.Obj?
    ensures Without(Merge(current, base, edited, true), Dropped(base, edited)) == Merge(current, base, edited, false)
    decreases edited
  {
    var partly, full := Merge(current, base, edited, true), Merge(current, base, edited, false);
    var gone := Dropped(base, edited);
    forall k ensures Get(Without(partly, gone).fields, k) == Get(full.fields, k) {
      MergeAt(current, base, edited, true, k);
      MergeAt(current, base, edited, false, k);
      KeyDropped(base, edited, k);
      if k in partly.fields && [k] !in gone {
        BelowDropped(base, edited, k);
        if k in base.fields && k in edited.fields && base.fields[k] != edited.fields[k] && base.fields[k].Obj? &&
           edited.fields[k].Obj? {
          PartialWithRemovalsIsFull(Get(Start(current, base), k), base.fields[k], edited.fields[k]);
        } else {
          if k in base.fields && k in edited.fields && base.fields[k].Obj? && edited.fields[k].Obj? {
            NothingDropped(base.fields[k]);
          }
          WithoutNothing(partly.fields[k], Below(gone, k));
        }
      }
    }
    SameFields(Without(partly, gone), full);
  }

  lemma KeyDropped(base: Json, edited: Json, k: string)
    requires base.Obj? && edited.Obj?
    ensures [k] in Dropped(base, edited) <==> k in base.fields && k !in edited.fields
  {
    assert [k][1..] == [];
    if k in base.fields && k in edited.fields && base.fields[k].Obj? && edited.fields[k].Obj? {
      assert !IsDropped(base.fields[k], edited.fields[k], []);
    }
  }

  lemma BelowDropped(base: Json, edited: Json, k: string)
    requires base.Obj? && edited.Obj?
    ensures Below(Dropped(base, edited), k) ==
      if k in base.fields && k in edited.fields && base.fields[k].Obj? && edited.fields[k].Obj?
      then Dropped(base.fields[k], edited.fields[k]) else iset{}
  {
    forall p: Path ensures ([k] + p)[1..] == p {
    }
  }

  lemma NothingDropped(base: Json)
    requires base.Obj?
    ensures Dropped(base, base) == iset{}
  {
    forall p: Path ensures !IsDropped(base, base, p) {
      NotDropped(base, p);
    }
  }

  lemma {:induction false} NotDropped(base: Json, path: Path)
    requires base.Obj?
    ensures !IsDropped(base, base, path)
    decreases |path|
  {
    if path != [] && path[0] in base.fields && base.fields[path[0]].Obj? {
      NotDropped(base.fields[path[0]], path[1..]);
    }
  }
}