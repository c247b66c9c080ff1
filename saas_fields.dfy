/** The generic relation from SaaS services to their databases
    (orchestra/contrib/saas/fields.py): which databases go with a bulk of
    services. */
module SaasFields {
  import SeqFilter

  /** A SaaS service: its `database_id`, 0 standing for none. */
  datatype Service = Service(id: int, databaseId: int)

  /** A database row. */
  datatype Database = Database(pk: int, name: string)

  /** The `database_id` of each service that has one, in order. */
  function DatabaseIds(objs: seq<Service>): (r: seq<int>)
    ensures |r| <= |objs|
    ensures forall k :: k in r <==> k != 0 && exists o :: o in objs && o.databaseId == k
  {
    if objs == [] then []
    else (if objs[0].databaseId != 0 then [objs[0].databaseId] else []) + DatabaseIds(objs[1..])
  }

  /** The loop that fills `pks`. */
  method CollectPks(objs: seq<Service>) returns (pks: seq<int>)
    ensures pks == DatabaseIds(objs)
  {
    pks := [];
    var i := 0;
    while i < |objs|
      invariant 0 <= i <= |objs|
      invariant pks == DatabaseIds(objs[..i])
    {
      DatabaseIdsAppend(objs[..i], objs[i]);
      assert objs[..i + 1] == objs[..i] + [objs[i]];
      if objs[i].databaseId != 0 {
        pks := pks + [objs[i].databaseId];
      }
      i := i + 1;
    }
    assert objs[..i] == objs;
  }

  lemma {:induction false} DatabaseIdsAppend(objs: seq<Service>, o: Service)
    ensures DatabaseIds(objs + [o]) == DatabaseIds(objs) + (if o.databaseId != 0 then [o.databaseId] else [])
    decreases |objs|
  {
    if objs == [] {
      assert [] + [o] == [o];
    } else {
      assert (objs + [o])[1..] == objs[1..] + [o];
      DatabaseIdsAppend(objs[1..], o);
    }
  }

  /** `bulk_related_objects`: no database ids means no rows; otherwise the
      databases whose pk is one of the ids. */
  method BulkRelatedObjects(objs: seq<Service>, table: seq<Database>) returns (rows: seq<Database>)
    ensures rows == RelatedRows(objs, table)
  {
    var pks := CollectPks(objs);
    if pks == [] {
      return [];
    }
    rows := SeqFilter.Keep(table, (d: Database) => d.pk in pks);
  }

  function RelatedRows(objs: seq<Service>, table: seq<Database>): seq<Database> {
    var pks := DatabaseIds(objs);
    if pks == [] then [] else SeqFilter.Keep(table, (d: Database) => d.pk in pks)
  }

  /** The databases returned are exactly those some service points to. */
  lemma RelatedRowsExact(objs: seq<Service>, table: seq<Database>)
    ensures forall d :: d in RelatedRows(objs, table) <==>
      d in table && d.pk != 0 && exists o :: o in objs && o.databaseId == d.pk
  {
  }

  /** Services without databases do not look at the table at all. */
  lemma NoIdsNoQuery(objs: seq<Service>, table1: seq<Database>, table2: seq<Database>)
    requires forall o :: o in objs ==> o.databaseId == 0
    ensures RelatedRows(objs, table1) == [] && RelatedRows(objs, table2) == []
  {
    NoIds(objs);
  }

  lemma {:induction false} NoIds(objs: seq<Service>)
    requires forall o :: o in objs ==> o.databaseId == 0
    ensures DatabaseIds(objs) == []
    decreases |objs|
  {
    if objs != [] {
      assert forall o :: o in objs[1..] ==> o in objs;
      NoIds(objs[1..]);
    }
  }
}
