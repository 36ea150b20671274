/** `landing.py` rows, and what "the newest row of a document" means downstream. */
module Landing {
  import opened ObjectIds
  import opened Timestamps
  import opened Watermarks

  /** One landed row. The JSON payload carries the whole document, so it is the document here. */
  datatype Row = Row(id: string, doc: Doc, watermark: string, extractedAt: Instant)

  /** `doc_to_row` */
  function RowOf(mode: Mode, run: Instant, d: Doc): Row {
    Row(Hex(d.id), d, WatermarkColumn(mode, d), run)
  }

  function RowsOf(mode: Mode, run: Instant, docs: seq<Doc>): (rows: seq<Row>)
    ensures |rows| == |docs| && forall i :: 0 <= i < |docs| ==> rows[i] == RowOf(mode, run, docs[i])
  {
    if docs == [] then []
    else RowsOf(mode, run, docs[..|docs| - 1]) + [RowOf(mode, run, docs[|docs| - 1])]
  }

  /** No row of the same document was extracted later than row `i`. */
  ghost predicate Newest(rows: seq<Row>, i: nat)
    requires i < |rows|
  {
    forall j :: 0 <= j < |rows| && rows[j].id == rows[i].id ==> rows[j].extractedAt <= rows[i].extractedAt
  }

  /** The document has landed, and whichever of its newest rows is picked carries version `d`. */
  ghost predicate Settled(rows: seq<Row>, d: Doc) {
    && (exists i :: 0 <= i < |rows| && rows[i].id == Hex(d.id))
    && (forall i :: 0 <= i < |rows| && rows[i].id == Hex(d.id) && Newest(rows, i) ==> rows[i].doc == d)
  }

  /** `docs` contains document `d`, and no other version of it. */
  ghost predicate Faithful(docs: seq<Doc>, d: Doc) {
    d in docs && forall e :: e in docs && e.id == d.id ==> e == d
  }

  ghost predicate Mentions(docs: seq<Doc>, id: ObjectId) {
    exists e :: e in docs && e.id == id
  }

  /** All of `rows` were extracted in seconds before `second`. */
  ghost predicate ExtractedBefore(rows: seq<Row>, second: int) {
    forall i :: 0 <= i < |rows| ==> rows[i].extractedAt / SECOND < second
  }

  /** A later run that read only the current version of a document settles it. */
  lemma {:induction false} LandingSettles(rows: seq<Row>, mode: Mode, run: Instant, docs: seq<Doc>, d: Doc)
    requires ExtractedBefore(rows, run / SECOND) && Faithful(docs, d)
    ensures Settled(rows + RowsOf(mode, run, docs), d)
  {
    var landed := RowsOf(mode, run, docs);
    var all := rows + landed;
    var k :| 0 <= k < |docs| && docs[k] == d;
    assert all[|rows| + k] == landed[k];
    forall i | 0 <= i < |rows| && rows[i].id == Hex(d.id)
      ensures !Newest(all, i)
    {
      assert all[i] == rows[i] && all[i].extractedAt < all[|rows| + k].extractedAt;
    }
    forall i | |rows| <= i < |all| && all[i].id == Hex(d.id)
      ensures all[i].doc == d
    {
      var e := docs[i - |rows|];
      assert all[i] == landed[i - |rows|] && e in docs;
      HexIsOrderIsomorphism(e.id, d.id);
    }
  }

  lemma {:induction false} NotMentioned(docs: seq<Doc>, id: ObjectId)
    requires !Mentions(docs, id)
    ensures forall e :: e in docs ==> Hex(e.id) != Hex(id)
  {
    forall e | e in docs
      ensures Hex(e.id) != Hex(id)
    {
      HexIsOrderIsomorphism(e.id, id);
    }
  }

  /** A run that read nothing of a document leaves it as settled as it was. */
  lemma {:induction false} LandingKeepsOthers(rows: seq<Row>, mode: Mode, run: Instant, docs: seq<Doc>, d: Doc)
    requires Settled(rows, d) && !Mentions(docs, d.id)
    ensures Settled(rows + RowsOf(mode, run, docs), d)
  {
    var landed := RowsOf(mode, run, docs);
    var all := rows + landed;
    NotMentioned(docs, d.id);
    hide Hex;
    forall i | |rows| <= i < |all|
      ensures all[i].id != Hex(d.id)
    {
      assert all[i] == landed[i - |rows|] && docs[i - |rows|] in docs;
    }
    var k :| 0 <= k < |rows| && rows[k].id == Hex(d.id);
    assert all[k] == rows[k];
    forall i | 0 <= i < |rows| && rows[i].id == Hex(d.id) && Newest(all, i)
      ensures all[i] == rows[i] && rows[i].doc == d
    {
      assert Newest(rows, i) by {
        assert all[i] == rows[i];
        forall j | 0 <= j < |rows| && rows[j].id == rows[i].id
          ensures rows[j].extractedAt <= rows[i].extractedAt
        {
          assert all[j] == rows[j];
        }
      }
    }
  }

  /** The newest rows of a document that a later run read are that run's. */
  lemma {:induction false} LandedIsNewest(rows: seq<Row>, mode: Mode, run: Instant, docs: seq<Doc>, k: nat)
    requires ExtractedBefore(rows, run / SECOND) && k < |docs|
    ensures Newest(rows + RowsOf(mode, run, docs), |rows| + k)
  {
    var landed := RowsOf(mode, run, docs);
    var all := rows + landed;
    assert all[|rows| + k] == landed[k];
    forall j | 0 <= j < |all|
      ensures all[j].extractedAt <= run
    {
      assert all[j] == if j < |rows| then rows[j] else landed[j - |rows|];
    }
  }

  /** A document that a later run read is settled only if that run read nothing but its current version. */
  lemma {:induction false} SettledOnlyIfFaithful(rows: seq<Row>, mode: Mode, run: Instant, docs: seq<Doc>, d: Doc)
    requires ExtractedBefore(rows, run / SECOND) && Mentions(docs, d.id)
    requires Settled(rows + RowsOf(mode, run, docs), d)
    ensures Faithful(docs, d)
  {
    hide Newest, ExtractedBefore;
    var landed := RowsOf(mode, run, docs);
    var all := rows + landed;
    forall e | e in docs && e.id == d.id
      ensures e == d
    {
      var k :| 0 <= k < |docs| && docs[k] == e;
      LandedIsNewest(rows, mode, run, docs, k);
      assert all[|rows| + k] == landed[k];
    }
  }

  /** A document that a later run did not read is settled only if it was before. */
  lemma {:induction false} SettledOnlyIfBefore(rows: seq<Row>, mode: Mode, run: Instant, docs: seq<Doc>, d: Doc)
    requires !Mentions(docs, d.id) && Settled(rows + RowsOf(mode, run, docs), d)
    ensures Settled(rows, d)
  {
    var landed := RowsOf(mode, run, docs);
    var all := rows + landed;
    NotMentioned(docs, d.id);
    hide Hex;
    forall i | |rows| <= i < |all|
      ensures all[i].id != Hex(d.id)
    {
      assert all[i] == landed[i - |rows|] && docs[i - |rows|] in docs;
    }
    var k :| 0 <= k < |all| && all[k].id == Hex(d.id);
    assert rows[k] == all[k];
    forall i | 0 <= i < |rows| && rows[i].id == Hex(d.id) && Newest(rows, i)
      ensures rows[i].doc == d
    {
      assert all[i] == rows[i];
      assert Newest(all, i);
    }
  }

  /** Exactly when a document is settled after a later run landed: that run read its current version and no
      other, or read nothing of it and it was settled before. */
  lemma {:induction false} SettledAfterLandingIff(rows: seq<Row>, mode: Mode, run: Instant, docs: seq<Doc>, d: Doc)
    requires ExtractedBefore(rows, run / SECOND)
    ensures Settled(rows + RowsOf(mode, run, docs), d)
      <==> Faithful(docs, d) || (!Mentions(docs, d.id) && Settled(rows, d))
  {
    hide Settled, Mentions, Faithful, RowsOf, ExtractedBefore;
    if Faithful(docs, d) {
      LandingSettles(rows, mode, run, docs, d);
    } else if Settled(rows + RowsOf(mode, run, docs), d) {
      if Mentions(docs, d.id) {
        SettledOnlyIfFaithful(rows, mode, run, docs, d);
      } else {
        SettledOnlyIfBefore(rows, mode, run, docs, d);
      }
    } else if !Mentions(docs, d.id) && Settled(rows, d) {
      LandingKeepsOthers(rows, mode, run, docs, d);
    }
  }
}
