/** The left merge of the table with the ISO 3166 country codes (lines 175-179). */
module CountryJoin {
  import opened Table

  /** The ISO 3166 table reduced to its (`ISO-2d`, `ISO-3d`) columns, which the
      merge renames to (`location`, `CountryCode`). */
  type IsoTable = seq<(string, string)>

  predicate UniqueAlpha2(iso: IsoTable)
  {
    forall i, j :: 0 <= i < j < |iso| ==> iso[i].0 != iso[j].0
  }

  /** The 3-letter codes of the pairs whose 2-letter code is `key`, in table order. */
  function Alpha3Matches(iso: IsoTable, key: Value): seq<string>
  {
    if iso == [] then []
    else
      var last := iso[|iso| - 1];
      Alpha3Matches(iso[..|iso| - 1], key) + (if Str(last.0) == key then [last.1] else [])
  }

  /** What a left merge makes of one row: a copy per matching pair, or the row
      itself with a NaN `CountryCode` when nothing matches. */
  function JoinRow(row: Row, codes: seq<string>): seq<Row>
  {
    if codes == [] then [row[CountryCode := Missing]]
    else seq(|codes|, k requires 0 <= k < |codes| => row[CountryCode := Str(codes[k])])
  }

  /** `df.merge(iso, how='left')` on the common column `location`: the left
      rows in order, each replaced by its joined rows. */
  function LeftJoin(t: seq<Row>, iso: IsoTable): seq<Row>
  {
    if t == [] then []
    else
      var last := t[|t| - 1];
      LeftJoin(t[..|t| - 1], iso) + JoinRow(last, Alpha3Matches(iso, Get(last, Location)))
  }

  /** `code` is the 3-letter code paired with `key` in the table, or NaN when
      no pair has `key` as its 2-letter code. */
  ghost predicate PairedCode(iso: IsoTable, key: Value, code: Value)
  {
    || (code == Missing && forall p :: p in iso ==> Str(p.0) != key)
    || (exists p :: p in iso && Str(p.0) == key && code == Str(p.1))
  }

  lemma {:induction false} MatchesCharacterized(iso: IsoTable, key: Value)
    ensures Alpha3Matches(iso, key) == [] <==> forall p :: p in iso ==> Str(p.0) != key
    ensures forall c :: c in Alpha3Matches(iso, key) ==> exists p :: p in iso && Str(p.0) == key && p.1 == c
  {
    if iso != [] {
      var n := |iso|;
      var init := iso[..n - 1];
      MatchesCharacterized(init, key);
      assert iso == init + [iso[n - 1]];
      forall c | c in Alpha3Matches(iso, key)
        ensures exists p :: p in iso && Str(p.0) == key && p.1 == c
      {
        if c in Alpha3Matches(init, key) {
          var p :| p in init && Str(p.0) == key && p.1 == c;
          assert p in iso;
        } else {
          assert iso[n - 1] in iso;
        }
      }
    }
  }

  /** With unique 2-letter codes at most one pair matches. */
  lemma {:induction false} MatchesAtMostOne(iso: IsoTable, key: Value)
    requires UniqueAlpha2(iso)
    ensures |Alpha3Matches(iso, key)| <= 1
  {
    if iso != [] {
      var n := |iso|;
      var init := iso[..n - 1];
      assert UniqueAlpha2(init);
      MatchesAtMostOne(init, key);
      if Str(iso[n - 1].0) == key {
        forall p | p in init
          ensures Str(p.0) != key
        {
          var i :| 0 <= i < n - 1 && init[i] == p;
          assert iso[i] == p;
        }
        MatchesCharacterized(init, key);
      }
    }
  }

  /** The row joined with the codes paired with its location, when at most one
      is: the row itself with the paired code, or NaN. */
  lemma JoinRowPaired(row: Row, iso: IsoTable)
    requires UniqueAlpha2(iso)
    ensures |JoinRow(row, Alpha3Matches(iso, Get(row, Location)))| == 1
    ensures Updated(row, JoinRow(row, Alpha3Matches(iso, Get(row, Location)))[0], {CountryCode})
    ensures PairedCode(iso, Get(row, Location), JoinRow(row, Alpha3Matches(iso, Get(row, Location)))[0][CountryCode])
  {
    var key := Get(row, Location);
    MatchesCharacterized(iso, key);
    MatchesAtMostOne(iso, key);
    var codes := Alpha3Matches(iso, key);
    if codes != [] {
      assert codes[0] in codes;
    }
  }

  /** A left merge never drops a row. */
  lemma {:induction false} LeftJoinNeverDrops(t: seq<Row>, iso: IsoTable)
    ensures |LeftJoin(t, iso)| >= |t|
  {
    if t != [] {
      LeftJoinNeverDrops(t[..|t| - 1], iso);
    }
  }

  /** With unique 2-letter codes the merge keeps the rows and their order, and
      gives each row the 3-letter code paired with its location, or NaN;
      nothing else in a row changes. */
  lemma {:induction false} LeftJoinKeepsRows(t: seq<Row>, iso: IsoTable)
    requires UniqueAlpha2(iso)
    ensures |LeftJoin(t, iso)| == |t|
    ensures forall i :: 0 <= i < |t| ==>
              Updated(t[i], LeftJoin(t, iso)[i], {CountryCode}) &&
              PairedCode(iso, Get(t[i], Location), LeftJoin(t, iso)[i][CountryCode])
  {
    if t != [] {
      var n := |t|;
      var init := t[..n - 1];
      LeftJoinKeepsRows(init, iso);
      JoinRowPaired(t[n - 1], iso);
      assert LeftJoin(t, iso) == LeftJoin(init, iso) + JoinRow(t[n - 1], Alpha3Matches(iso, Get(t[n - 1], Location)));
    }
  }

  /** The merge of lines 175-179, scanning the code table for every row. */
  method MergeCountryCodes(t: seq<Row>, iso: IsoTable) returns (r: seq<Row>)
    requires forall i :: 0 <= i < |t| ==> CountryCode !in t[i]
    ensures r == LeftJoin(t, iso)
    ensures UniqueAlpha2(iso) ==> |r| == |t|
    ensures UniqueAlpha2(iso) ==> forall i :: 0 <= i < |t| ==>
              Updated(t[i], r[i], {CountryCode}) && PairedCode(iso, Get(t[i], Location), r[i][CountryCode])
  {
    r := [];
    for i := 0 to |t|
      invariant r == LeftJoin(t[..i], iso)
    {
      var key := Get(t[i], Location);
      var codes: seq<string> := [];
      for j := 0 to |iso|
        invariant codes == Alpha3Matches(iso[..j], key)
      {
        assert iso[..j + 1][..j] == iso[..j];
        if Str(iso[j].0) == key {
          codes := codes + [iso[j].1];
        }
      }
      assert iso[..|iso|] == iso;
      assert t[..i + 1][..i] == t[..i];
      r := r + JoinRow(t[i], codes);
    }
    assert t[..|t|] == t;
    if UniqueAlpha2(iso) {
      LeftJoinKeepsRows(t, iso);
    }
  }
}
