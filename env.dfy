/** Merging a container's current KEY=VALUE environment list with a module's
    declared environment map (merge_env). The map is built from the declared
    environment first and then extended with the current list, so on a key
    collision the entry of the current list wins; a later entry of the list
    wins over an earlier one. */
module Env {
  import opened Types

  /** The position of the first '=' in s, or |s| when there is none. */
  function FirstEquals(s: string): (i: nat)
    ensures i <= |s|
    ensures forall j :: 0 <= j < i ==> s[j] != '='
    ensures i < |s| ==> s[i] == '='
  {
    if s == [] || s[0] == '=' then 0 else 1 + FirstEquals(s[1..])
  }

  /** One "KEY=VALUE" entry split at its first '=' only: the value may hold
      further '=' characters, and an entry without '=' is a key with an empty
      value. */
  function SplitEntry(s: string): (kv: (string, string))
    ensures '=' !in kv.0
    ensures '=' in s ==> s == kv.0 + "=" + kv.1
    ensures '=' !in s ==> kv == (s, "")
  {
    var i := FirstEquals(s);
    if i == |s| then (s, "")
    else
      assert s == s[..i] + "=" + s[i + 1..];
      (s[..i], s[i + 1..])
  }

  /** The "KEY=VALUE" string of one variable. */
  function Entry(key: string, value: string): string {
    key + "=" + value
  }

  /** Rendering a variable whose key has no '=' and splitting it again gives
      back the same key and value. */
  lemma SplitEntryOfEntry(key: string, value: string)
    requires '=' !in key
    ensures SplitEntry(Entry(key, value)) == (key, value)
  {
    var s := Entry(key, value);
    assert s[|key|] == '=';
    assert forall j :: 0 <= j < |key| ==> s[j] == key[j];
    var i := FirstEquals(s);
    assert i == |key|;
    assert s[..i] == key && s[i + 1..] == value;
  }

  /** The map that inserting the entries of a current environment list in
      order builds: a later entry overwrites an earlier one with its key. */
  function ParseEnv(cur: seq<string>): (r: map<string, string>)
    ensures |r| <= |cur|
  {
    if cur == [] then map[]
    else
      var kv := SplitEntry(cur[|cur| - 1]);
      ParseEnv(cur[..|cur| - 1])[kv.0 := kv.1]
  }

  /** The keys a current environment list defines. */
  function EnvKeys(cur: seq<string>): set<string> {
    set e | e in cur :: SplitEntry(e).0
  }

  /** The merged environment as a map: the declared environment, overwritten
      by the parsed current list when there is one. */
  function MergedEnv(cur: Option<seq<string>>, newEnv: map<string, string>): (r: map<string, string>)
    ensures newEnv.Keys <= r.Keys
    ensures cur.Some? ==> ParseEnv(cur.value).Keys <= r.Keys
  {
    match cur
    case None => newEnv
    case Some(env) => newEnv + ParseEnv(env)
  }

  /** ks lists each key of m exactly once, and r holds, in that order, the
      "KEY=VALUE" string of each. */
  ghost predicate RendersVia(r: seq<string>, m: map<string, string>, ks: seq<string>) {
    && |ks| == |r|
    && (forall i, j :: 0 <= i < j < |ks| ==> ks[i] != ks[j])
    && (forall k :: k in m <==> k in ks)
    && (forall i :: 0 <= i < |ks| ==> ks[i] in m && r[i] == Entry(ks[i], m[ks[i]]))
  }

  /** r holds exactly one "KEY=VALUE" string per key of m, in some order. */
  ghost predicate Renders(r: seq<string>, m: map<string, string>) {
    exists ks :: RendersVia(r, m, ks)
  }

  /** merge_env: extends an empty map with the declared environment, then
      with the split entries of the current list, and renders every key of
      the result once. The order of the rendered list is not specified. */
  method MergeEnv(cur: Option<seq<string>>, newEnv: map<string, string>) returns (r: seq<string>)
    ensures Renders(r, MergedEnv(cur, newEnv))
  {
    var merged: map<string, string> := map[];
    var pending := newEnv.Keys;
    while pending != {}
      invariant pending <= newEnv.Keys
      invariant merged == map k | k in newEnv && k !in pending :: newEnv[k]
      decreases pending
    {
      var k :| k in pending;
      merged := merged[k := newEnv[k]];
      pending := pending - {k};
    }
    assert merged == newEnv;

    if cur.Some? {
      merged := ExtendWithEntries(merged, cur.value);
    }
    r := Render(merged);
  }

  /** Extends m with the split entries of env, one after the other. */
  method ExtendWithEntries(m: map<string, string>, env: seq<string>) returns (merged: map<string, string>)
    ensures merged == m + ParseEnv(env)
  {
    merged := m;
    var i := 0;
    while i < |env|
      invariant 0 <= i <= |env|
      invariant merged == m + ParseEnv(env[..i])
    {
      var kv := SplitEntry(env[i]);
      assert env[..i + 1][..i] == env[..i];
      assert ParseEnv(env[..i + 1]) == ParseEnv(env[..i])[kv.0 := kv.1];
      UnionUpdate(m, ParseEnv(env[..i]), kv.0, kv.1);
      merged := merged[kv.0 := kv.1];
      i := i + 1;
    }
    assert env[..|env|] == env;
  }

  /** Updating the right operand of a map union updates the union. */
  lemma UnionUpdate(m: map<string, string>, p: map<string, string>, k: string, v: string)
    ensures m + p[k := v] == (m + p)[k := v]
  {
  }

  /** Renders every key of m once, as "KEY=VALUE", in the order the keys are
      picked. */
  method Render(m: map<string, string>) returns (r: seq<string>)
    ensures Renders(r, m)
  {
    r := [];
    ghost var ks: seq<string> := [];
    var rest := m.Keys;
    while rest != {}
      invariant rest <= m.Keys
      invariant |ks| == |r|
      invariant forall i, j :: 0 <= i < j < |ks| ==> ks[i] != ks[j]
      invariant forall k :: k in ks <==> k in m && k !in rest
      invariant forall i :: 0 <= i < |ks| ==> ks[i] in m && r[i] == Entry(ks[i], m[ks[i]])
      decreases rest
    {
      var k :| k in rest;
      r := r + [Entry(k, m[k])];
      ks := ks + [k];
      rest := rest - {k};
    }
    assert RendersVia(r, m, ks);
  }

  /** The keys of the parsed list are exactly the keys its entries name. */
  lemma {:induction false} ParseEnvKeys(cur: seq<string>)
    ensures ParseEnv(cur).Keys == EnvKeys(cur)
  {
    if cur != [] {
      var init := cur[..|cur| - 1];
      ParseEnvKeys(init);
      assert cur == init + [cur[|cur| - 1]];
      assert EnvKeys(cur) == EnvKeys(init) + {SplitEntry(cur[|cur| - 1]).0};
    }
  }

  /** An entry that no later entry of the list overrides gives its key its
      value in the parsed map. */
  lemma {:induction false} ParseEnvLastWins(cur: seq<string>, i: nat)
    requires i < |cur|
    requires forall j :: i < j < |cur| ==> SplitEntry(cur[j]).0 != SplitEntry(cur[i]).0
    ensures SplitEntry(cur[i]).0 in ParseEnv(cur)
    ensures ParseEnv(cur)[SplitEntry(cur[i]).0] == SplitEntry(cur[i]).1
  {
    if i < |cur| - 1 {
      var init := cur[..|cur| - 1];
      assert init[i] == cur[i];
      forall j | i < j < |init| ensures SplitEntry(init[j]).0 != SplitEntry(init[i]).0 {
        assert init[j] == cur[j];
      }
      ParseEnvLastWins(init, i);
    }
  }

  /** The merged key set is the union of the declared keys and the keys the
      current list names. */
  lemma MergedEnvKeys(cur: seq<string>, newEnv: map<string, string>)
    ensures MergedEnv(Some(cur), newEnv).Keys == newEnv.Keys + EnvKeys(cur)
  {
    ParseEnvKeys(cur);
  }

  /** A key the current list names takes the value of its last entry there,
      whatever the declared environment says about it. */
  lemma MergedEnvCurrentWins(cur: seq<string>, newEnv: map<string, string>, i: nat)
    requires i < |cur|
    requires forall j :: i < j < |cur| ==> SplitEntry(cur[j]).0 != SplitEntry(cur[i]).0
    ensures SplitEntry(cur[i]).0 in MergedEnv(Some(cur), newEnv)
    ensures MergedEnv(Some(cur), newEnv)[SplitEntry(cur[i]).0] == SplitEntry(cur[i]).1
  {
    ParseEnvLastWins(cur, i);
  }

  /** A declared key that the current list does not name keeps its declared
      value; with no current list the declared environment is the result. */
  lemma MergedEnvDeclaredOnly(cur: Option<seq<string>>, newEnv: map<string, string>, key: string)
    requires key in newEnv
    requires cur.Some? ==> key !in EnvKeys(cur.value)
    ensures key in MergedEnv(cur, newEnv) && MergedEnv(cur, newEnv)[key] == newEnv[key]
  {
    if cur.Some? {
      ParseEnvKeys(cur.value);
    }
  }

  /** A sequence without repeated elements has as many distinct elements as
      it has positions. */
  lemma {:induction false} DistinctCard(ks: seq<string>)
    requires forall i, j :: 0 <= i < j < |ks| ==> ks[i] != ks[j]
    ensures |set k | k in ks| == |ks|
  {
    if ks != [] {
      var tail := ks[1..];
      DistinctCard(tail);
      assert (set k | k in ks) == (set k | k in tail) + {ks[0]};
      assert ks[0] !in tail by {
        forall j | 0 <= j < |tail| ensures tail[j] != ks[0] {
          assert tail[j] == ks[j + 1];
        }
      }
    }
  }

  /** What a rendered list tells its reader: one string per key, the string
      of every key is present, and every string is the string of some key. */
  lemma RendersFacts(r: seq<string>, m: map<string, string>)
    requires Renders(r, m)
    ensures |r| == |m|
    ensures forall k :: k in m ==> Entry(k, m[k]) in r
    ensures forall s :: s in r ==> exists k :: k in m && s == Entry(k, m[k])
  {
    var ks :| RendersVia(r, m, ks);
    RendersViaLength(r, m, ks);
    forall k | k in m ensures Entry(k, m[k]) in r {
      RendersViaCovers(r, m, ks, k);
    }
    forall s | s in r ensures exists k :: k in m && s == Entry(k, m[k]) {
      var i :| 0 <= i < |r| && r[i] == s;
      RendersViaAt(r, m, ks, i);
    }
  }

  lemma RendersViaLength(r: seq<string>, m: map<string, string>, ks: seq<string>)
    requires RendersVia(r, m, ks)
    ensures |r| == |m|
  {
    DistinctCard(ks);
    assert (set k | k in ks) == m.Keys;
  }

  lemma RendersViaCovers(r: seq<string>, m: map<string, string>, ks: seq<string>, k: string)
    requires RendersVia(r, m, ks) && k in m
    ensures Entry(k, m[k]) in r
  {
    var i :| 0 <= i < |ks| && ks[i] == k;
    assert r[i] == Entry(k, m[k]);
  }

  lemma RendersViaAt(r: seq<string>, m: map<string, string>, ks: seq<string>, i: nat)
    requires RendersVia(r, m, ks) && i < |r|
    ensures ks[i] in m && r[i] == Entry(ks[i], m[ks[i]])
  {
  }

  /** With an empty current list, or none, and an empty declared environment,
      the merged list is empty. */
  lemma MergeEnvEmpty(cur: Option<seq<string>>, r: seq<string>)
    requires cur == None || cur == Some([])
    requires Renders(r, MergedEnv(cur, map[]))
    ensures r == []
  {
    assert MergedEnv(cur, map[]) == map[];
    RendersFacts(r, MergedEnv(cur, map[]));
  }

  /** The current list ["k1=v1", "k2=v2"] parses to k1 -> v1, k2 -> v2. */
  lemma ParseExampleList()
    ensures ParseEnv(["k1=v1", "k2=v2"]) == map["k1" := "v1", "k2" := "v2"]
  {
    assert Entry("k1", "v1") == "k1=v1" && Entry("k2", "v2") == "k2=v2";
    SplitEntryOfEntry("k1", "v1");
    SplitEntryOfEntry("k2", "v2");
    var one: seq<string> := ["k1=v1"];
    assert ["k1=v1", "k2=v2"][..1] == one;
    assert one[..0] == [];
    assert ParseEnv(one) == map["k1" := "v1"];
  }

  /** A list rendering a map of three variables holds exactly their three
      strings. */
  lemma RendersThree(r: seq<string>, m: map<string, string>, a: string, b: string, c: string)
    requires Renders(r, m)
    requires m.Keys == {a, b, c} && |m| == 3
    ensures |r| == 3
    ensures (set s | s in r) == {Entry(a, m[a]), Entry(b, m[b]), Entry(c, m[c])}
  {
    var ks :| RendersVia(r, m, ks);
    RendersViaLength(r, m, ks);
    RendersViaThree(r, m, ks, a, b, c);
  }

  lemma RendersViaThree(r: seq<string>, m: map<string, string>, ks: seq<string>, a: string, b: string, c: string)
    requires RendersVia(r, m, ks)
    requires m.Keys == {a, b, c}
    ensures (set s | s in r) == {Entry(a, m[a]), Entry(b, m[b]), Entry(c, m[c])}
  {
    var expected := {Entry(a, m[a]), Entry(b, m[b]), Entry(c, m[c])};
    forall i | 0 <= i < |r| ensures r[i] in expected {
      RendersViaAmongThree(r, m, ks, i, a, b, c);
    }
    RendersViaCovers(r, m, ks, a);
    RendersViaCovers(r, m, ks, b);
    RendersViaCovers(r, m, ks, c);
    ElementsAre(r, expected);
  }

  /** The elements of a sequence, as a set, are S when each lies in S and
      each member of S occurs. */
  lemma ElementsAre(r: seq<string>, S: set<string>)
    requires forall i :: 0 <= i < |r| ==> r[i] in S
    requires forall s :: s in S ==> s in r
    ensures (set s | s in r) == S
  {
  }

  lemma RendersViaAmongThree(r: seq<string>, m: map<string, string>, ks: seq<string>, i: nat,
                             a: string, b: string, c: string)
    requires RendersVia(r, m, ks) && m.Keys == {a, b, c} && i < |r|
    ensures r[i] in {Entry(a, m[a]), Entry(b, m[b]), Entry(c, m[c])}
  {
    RendersViaAt(r, m, ks, i);
    assert ks[i] in m.Keys;
  }

  /** The strings of the three example variables k1 -> v1, k2 -> v2, k3 -> v3. */
  lemma ThreeExampleEntries(m: map<string, string>)
    requires m == map["k1" := "v1", "k2" := "v2", "k3" := "v3"]
    ensures |m.Keys| == 3
    ensures {Entry("k1", m["k1"]), Entry("k2", m["k2"]), Entry("k3", m["k3"])} == {"k1=v1", "k2=v2", "k3=v3"}
  {
    assert m["k1"] == "v1" && m["k2"] == "v2" && m["k3"] == "v3";
    assert Entry("k1", "v1") == "k1=v1" && Entry("k2", "v2") == "k2=v2" && Entry("k3", "v3") == "k3=v3";
  }

  /** A list rendering k1 -> v1, k2 -> v2, k3 -> v3 holds exactly their three
      strings. */
  lemma RendersThreeExample(r: seq<string>)
    requires Renders(r, map["k1" := "v1", "k2" := "v2", "k3" := "v3"])
    ensures |r| == 3
    ensures (set s | s in r) == {"k1=v1", "k2=v2", "k3=v3"}
  {
    var m := map["k1" := "v1", "k2" := "v2", "k3" := "v3"];
    ThreeExampleEntries(m);
    RendersThree(r, m, "k1", "k2", "k3");
  }

  /** Merging ["k1=v1", "k2=v2"] with {k2: v02, k3: v3}: the current k2=v2
      survives and k3 is added. */
  lemma MergedReplaceExample()
    ensures MergedEnv(Some(["k1=v1", "k2=v2"]), map["k2" := "v02", "k3" := "v3"])
         == map["k1" := "v1", "k2" := "v2", "k3" := "v3"]
  {
    ParseExampleList();
  }

  /** The rendered list of that merge holds exactly k1=v1, k2=v2 and k3=v3. */
  lemma MergeEnvReplaceExample(r: seq<string>)
    requires Renders(r, MergedEnv(Some(["k1=v1", "k2=v2"]), map["k2" := "v02", "k3" := "v3"]))
    ensures |r| == 3
    ensures (set s | s in r) == {"k1=v1", "k2=v2", "k3=v3"}
  {
    MergedReplaceExample();
    RendersThreeExample(r);
  }

  /** Merging ["k1=v1", "k2=v2"] with {k3: v3} adds k3 to the two current
      variables. */
  lemma MergedExtendExample()
    ensures MergedEnv(Some(["k1=v1", "k2=v2"]), map["k3" := "v3"])
         == map["k1" := "v1", "k2" := "v2", "k3" := "v3"]
  {
    ParseExampleList();
  }

  /** The rendered list of that merge holds exactly k1=v1, k2=v2 and k3=v3. */
  lemma MergeEnvExtendExample(r: seq<string>)
    requires Renders(r, MergedEnv(Some(["k1=v1", "k2=v2"]), map["k3" := "v3"]))
    ensures |r| == 3
    ensures (set s | s in r) == {"k1=v1", "k2=v2", "k3=v3"}
  {
    MergedExtendExample();
    RendersThreeExample(r);
  }

  /** A list rendering a map of two variables holds exactly their two
      strings. */
  lemma RendersTwo(r: seq<string>, m: map<string, string>, a: string, b: string)
    requires Renders(r, m)
    requires m.Keys == {a, b} && |m| == 2
    ensures |r| == 2
    ensures (set s | s in r) == {Entry(a, m[a]), Entry(b, m[b])}
  {
    var ks :| RendersVia(r, m, ks);
    RendersViaLength(r, m, ks);
    RendersViaTwo(r, m, ks, a, b);
  }

  lemma RendersViaTwo(r: seq<string>, m: map<string, string>, ks: seq<string>, a: string, b: string)
    requires RendersVia(r, m, ks)
    requires m.Keys == {a, b}
    ensures (set s | s in r) == {Entry(a, m[a]), Entry(b, m[b])}
  {
    var expected := {Entry(a, m[a]), Entry(b, m[b])};
    forall i | 0 <= i < |r| ensures r[i] in expected {
      RendersViaAt(r, m, ks, i);
      assert ks[i] in m.Keys;
    }
    RendersViaCovers(r, m, ks, a);
    RendersViaCovers(r, m, ks, b);
    ElementsAre(r, expected);
  }

  /** The strings of the two example variables k1 -> v1, k2 -> v2. */
  lemma TwoExampleEntries(m: map<string, string>)
    requires m == map["k1" := "v1", "k2" := "v2"]
    ensures |m.Keys| == 2
    ensures {Entry("k1", m["k1"]), Entry("k2", m["k2"])} == {"k1=v1", "k2=v2"}
  {
    assert m["k1"] == "v1" && m["k2"] == "v2";
    assert Entry("k1", "v1") == "k1=v1" && Entry("k2", "v2") == "k2=v2";
  }

  /** Merging ["k1=v1", "k2=v2"] with an empty declared environment keeps the
      two current variables and nothing else. */
  lemma MergedNewEmptyExample()
    ensures MergedEnv(Some(["k1=v1", "k2=v2"]), map[]) == map["k1" := "v1", "k2" := "v2"]
  {
    ParseExampleList();
  }

  /** The rendered list of that merge holds exactly k1=v1 and k2=v2. */
  lemma MergeEnvNewEmptyExample(r: seq<string>)
    requires Renders(r, MergedEnv(Some(["k1=v1", "k2=v2"]), map[]))
    ensures |r| == 2
    ensures (set s | s in r) == {"k1=v1", "k2=v2"}
  {
    MergedNewEmptyExample();
    var m := map["k1" := "v1", "k2" := "v2"];
    TwoExampleEntries(m);
    RendersTwo(r, m, "k1", "k2");
  }
}
