/** llm/vectorstores/pgvector/data_model.py: the multi-tenant tables. Each
    (organisation, data source) pair has its own document table and vector
    index, named after the two names; a member's embeddings are collected
    from the document tables of the data sources they belong to. */
module DataModel {
  import opened Wrappers
  import opened Strings

  type Uuid = string

  /** An embedding vector; its components are carried, never computed on. */
  type Embedding = seq<real>

  datatype Organization = Organization(uuid: Uuid, name: string, description: Option<string>)

  datatype DataSource = DataSource(
    uuid: Uuid,
    organizationUuid: Uuid,
    name: string,
    description: Option<string>,
    botAuthData: map<string, string>,
    documentTableMetadata: map<string, string>,
    airbyteMetaData: map<string, string>)

  datatype Membership = Membership(uuid: Uuid, dataSourceUuid: Uuid, memberUuid: Uuid, documentUuid: Uuid)

  /** The dynamically named document table class: its table and its index. */
  datatype DocumentTable = DocumentTable(tableName: string, indexName: string)

  /** A row of a document table. */
  datatype Document = Document(
    table: DocumentTable,
    uuid: Uuid,
    name: string,
    description: Option<string>,
    url: Option<string>,
    contextData: map<string, string>,
    dataSourceUuid: Option<Uuid>,
    embeddings: Embedding,
    content: Option<string>)

  /** A split piece of a loaded document, with its embedding. */
  datatype Chunk = Chunk(pageContent: string, embedding: Embedding)

  // ---------------------------------------------------------------------
  // document_table_factory

  const TablePrefix: string := "document_table__"
  const IndexPrefix: string := "embedding_idx_"

  /** The pair of names a table or index is named after. */
  function PairName(organization: Organization, dataSource: DataSource): string {
    organization.name + "_" + dataSource.name
  }

  function DocumentTableFactory(organization: Organization, dataSource: DataSource): (t: DocumentTable)
    ensures StartsWith(t.tableName, TablePrefix) && StartsWith(t.indexName, IndexPrefix)
    ensures t.tableName[|TablePrefix|..] == t.indexName[|IndexPrefix|..] == PairName(organization, dataSource)
  {
    DocumentTable(TablePrefix + PairName(organization, dataSource), IndexPrefix + PairName(organization, dataSource))
  }

  /** The names tell the pairs apart as long as organisation names have no
      underscore: then two pairs share a table exactly when they have the
      same organisation name and the same data-source name. */
  lemma TableNamesDistinguishPairs(o1: Organization, d1: DataSource, o2: Organization, d2: DataSource)
    requires '_' !in o1.name && '_' !in o2.name
    ensures DocumentTableFactory(o1, d1).tableName == DocumentTableFactory(o2, d2).tableName
            <==> o1.name == o2.name && d1.name == d2.name
  {
    if DocumentTableFactory(o1, d1).tableName == DocumentTableFactory(o2, d2).tableName {
      var p1 := PairName(o1, d1);
      var p2 := PairName(o2, d2);
      assert p1 == p2;
      OrganizationNameIsFirstField(o1.name, d1.name);
      OrganizationNameIsFirstField(o2.name, d2.name);
      assert o1.name == o2.name;
      assert p1[|o1.name| + 1..] == d1.name;
      assert p2[|o2.name| + 1..] == d2.name;
    }
  }

  /** In `org + "_" + ds` with an underscore-free `org`, the first
      underscore ends the organisation name. */
  lemma OrganizationNameIsFirstField(org: string, ds: string)
    requires '_' !in org
    ensures var p := org + "_" + ds;
            && |org| < |p| && p[|org|] == '_'
            && (forall k :: 0 <= k < |org| ==> p[k] != '_')
            && p[..|org|] == org
  {
    var p := org + "_" + ds;
    forall k | 0 <= k < |org|
      ensures p[k] != '_'
    {
      assert p[k] == org[k];
    }
  }

  /** Without that condition two tenants can share a table: organisation
      "acme_eu" with data source "wiki" and organisation "acme" with data
      source "eu_wiki" both get "document_table__acme_eu_wiki". */
  lemma TableNamesCanCollide()
    ensures var o1 := Organization("1", "acme_eu", None);
            var o2 := Organization("2", "acme", None);
            var d1 := DataSource("3", "1", "wiki", None, map[], map[], map[]);
            var d2 := DataSource("4", "2", "eu_wiki", None, map[], map[], map[]);
            && DocumentTableFactory(o1, d1) == DocumentTableFactory(o2, d2)
            && o1.name != o2.name
  {
    assert "acme_eu" + "_" + "wiki" == "acme" + "_" + "eu_wiki";
  }

  // ---------------------------------------------------------------------
  // create_data_source and create_document

  /** create_data_source as written: the table name is stored under the
      data source's own name. `uuid` stands for the fresh uuid4. */
  function CreateDataSourceAsWritten(uuid: Uuid, name: string, organization: Organization,
                                     documentTableName: string): (ds: DataSource)
    ensures ds.documentTableMetadata == map[name := documentTableName]
    ensures ds.(documentTableMetadata := map["name" := documentTableName])
            == CreateDataSource(uuid, name, organization, documentTableName)
  {
    DataSource(uuid, organization.uuid, name, Some("Airbyte Data Source"),
               map[], map[name := documentTableName], map[])
  }

  /** create_data_source with the table name stored under "name", the key
      every reader of the metadata looks up. */
  function CreateDataSource(uuid: Uuid, name: string, organization: Organization,
                            documentTableName: string): (ds: DataSource)
    ensures ds.uuid == uuid && ds.name == name && ds.organizationUuid == organization.uuid
    ensures ds.documentTableMetadata == map["name" := documentTableName]
    ensures ds.botAuthData == map[] && ds.airbyteMetaData == map[]
  {
    DataSource(uuid, organization.uuid, name, Some("Airbyte Data Source"),
               map[], map["name" := documentTableName], map[])
  }

  /** The lookup of get_embeddings_for_member: None is the KeyError. */
  function TableNameOf(dataSource: DataSource): Option<string> {
    if "name" in dataSource.documentTableMetadata then Some(dataSource.documentTableMetadata["name"]) else None
  }

  /** As written, the table name cannot be read back unless the data
      source happens to be called "name": a data source "wiki" with table
      "t" raises a KeyError when a member's embeddings are collected. */
  lemma MetadataKeyMismatch(uuid: Uuid, name: string, organization: Organization, documentTableName: string)
    ensures TableNameOf(CreateDataSourceAsWritten(uuid, name, organization, documentTableName)).Some?
            <==> name == "name"
    ensures TableNameOf(CreateDataSourceAsWritten("1", "wiki", organization, "t")) == None
  {
  }

  /** The corrected metadata always reads back as the table it names. */
  lemma CreatedTableNameReadsBack(uuid: Uuid, name: string, organization: Organization, documentTableName: string)
    ensures TableNameOf(CreateDataSource(uuid, name, organization, documentTableName)) == Some(documentTableName)
  {
  }

  /** create_document: a row of the pair's table holding the chunk's text
      and embedding under a fresh uuid; the data-source uuid is left unset. */
  function CreateDocument(uuid: Uuid, organization: Organization, dataSource: DataSource, chunk: Chunk): (d: Document)
    ensures d.table == DocumentTableFactory(organization, dataSource)
    ensures d.uuid == uuid && d.content == Some(chunk.pageContent) && d.embeddings == chunk.embedding
    ensures d.dataSourceUuid.None?
  {
    Document(DocumentTableFactory(organization, dataSource), uuid, "Test document",
             Some("Airbyte Data Source Document"), Some(""), map[], None, chunk.embedding, Some(chunk.pageContent))
  }

  // ---------------------------------------------------------------------
  // get_embeddings_for_member

  /** A row of the per-table query: uuid and embeddings, which the loop
      copies into a `{"uuid", "embeddings"}` dictionary unchanged. */
  datatype Row = Row(uuid: Uuid, embeddings: Embedding)

  datatype LookupError = MissingTableName(dataSourceUuid: Uuid) | QueryFailed(tableName: string)

  /** One result of the membership join. */
  datatype Pair = Pair(membership: Membership, dataSource: DataSource)

  /** The SQL text sent for one document table. `reference` is the
      comma-joined reference embedding. */
  function SelectSql(tableName: string, reference: string): string {
    "SELECT uuid, embeddings FROM \"" + tableName + "\" WHERE embeddings <-> ARRAY[" + reference + "]::vector < :k"
  }

  /** One iteration of the loop, on the dictionary built so far. `query`
      stands for executing an SQL text with the bound `k` (None when the
      database raises). */
  function Step(acc: map<Uuid, seq<Row>>, p: Pair, reference: string, k: int,
                query: (string, int) -> Option<seq<Row>>): Result<map<Uuid, seq<Row>>, LookupError>
  {
    match TableNameOf(p.dataSource)
    case None => Err(MissingTableName(p.dataSource.uuid))
    case Some(t) =>
      if t == "" then Ok(acc)
      else match query(SelectSql(t, reference), k)
        case None => Err(QueryFailed(t))
        case Some(rows) => Ok(acc[p.membership.documentUuid := rows])
  }

  /** The dictionary the loop returns after the given join results. */
  function MemberEmbeddings(pairs: seq<Pair>, reference: string, k: int,
                            query: (string, int) -> Option<seq<Row>>): Result<map<Uuid, seq<Row>>, LookupError>
  {
    if pairs == [] then Ok(map[])
    else match MemberEmbeddings(pairs[..|pairs| - 1], reference, k, query)
      case Err(e) => Err(e)
      case Ok(acc) => Step(acc, pairs[|pairs| - 1], reference, k, query)
  }

  /** The loop of get_embeddings_for_member over the join results. */
  method GetEmbeddingsForMember(pairs: seq<Pair>, reference: string, k: int,
                                query: (string, int) -> Option<seq<Row>>)
    returns (r: Result<map<Uuid, seq<Row>>, LookupError>)
    ensures r == MemberEmbeddings(pairs, reference, k, query)
  {
    var embeddings: map<Uuid, seq<Row>> := map[];
    for i := 0 to |pairs|
      invariant MemberEmbeddings(pairs[..i], reference, k, query) == Ok(embeddings)
    {
      assert pairs[..i + 1][..i] == pairs[..i];
      var p := pairs[i];
      if "name" !in p.dataSource.documentTableMetadata {
        ErrorPersists(pairs, i + 1, reference, k, query);
        return Err(MissingTableName(p.dataSource.uuid));
      }
      var documentTableName := p.dataSource.documentTableMetadata["name"];
      if documentTableName != "" {
        var sql := SelectSql(documentTableName, reference);
        var result := query(sql, k);
        if result.None? {
          ErrorPersists(pairs, i + 1, reference, k, query);
          return Err(QueryFailed(documentTableName));
        }
        embeddings := embeddings[p.membership.documentUuid := result.value];
      }
    }
    assert pairs[..|pairs|] == pairs;
    return Ok(embeddings);
  }

  /** The first failing membership ends the loop: an error after a prefix
      of the join results is the error of the whole call. */
  lemma {:induction false} ErrorPersists(pairs: seq<Pair>, n: nat, reference: string, k: int,
                                         query: (string, int) -> Option<seq<Row>>)
    requires n <= |pairs| && MemberEmbeddings(pairs[..n], reference, k, query).Err?
    ensures MemberEmbeddings(pairs, reference, k, query) == MemberEmbeddings(pairs[..n], reference, k, query)
    decreases |pairs| - n
  {
    if n == |pairs| {
      assert pairs[..n] == pairs;
    } else {
      var longer := pairs[..n + 1];
      assert longer[..|longer| - 1] == pairs[..n];
      ErrorPersists(pairs, n + 1, reference, k, query);
    }
  }

  // ---------------------------------------------------------------------
  // Properties of the collected embeddings

  /** The pair names a table that is queried. */
  predicate Queried(p: Pair) {
    TableNameOf(p.dataSource).Some? && TableNameOf(p.dataSource).value != ""
  }

  /** The keys are the document uuids of the memberships whose table is
      queried, and no others. */
  lemma {:induction false} KeysAreQueriedDocuments(pairs: seq<Pair>, reference: string, k: int,
                                                  query: (string, int) -> Option<seq<Row>>)
    requires MemberEmbeddings(pairs, reference, k, query).Ok?
    ensures forall u :: u in MemberEmbeddings(pairs, reference, k, query).value
                        <==> exists i :: 0 <= i < |pairs| && Queried(pairs[i]) && pairs[i].membership.documentUuid == u
  {
    if pairs != [] {
      var init := pairs[..|pairs| - 1];
      var last := pairs[|pairs| - 1];
      KeysAreQueriedDocuments(init, reference, k, query);
      forall i | 0 <= i < |init|
        ensures init[i] == pairs[i]
      {
      }
    }
  }

  /** Every pair has a table name when the collection succeeds: a single
      data source without the "name" key makes the whole call fail. */
  lemma {:induction false} SuccessNeedsEveryTableName(pairs: seq<Pair>, reference: string, k: int,
                                                     query: (string, int) -> Option<seq<Row>>)
    requires MemberEmbeddings(pairs, reference, k, query).Ok?
    ensures forall i :: 0 <= i < |pairs| ==> TableNameOf(pairs[i].dataSource).Some?
  {
    if pairs != [] {
      var init := pairs[..|pairs| - 1];
      SuccessNeedsEveryTableName(init, reference, k, query);
      assert forall i :: 0 <= i < |init| ==> init[i] == pairs[i];
    }
  }

  /** The entry for a document uuid holds the rows of the last queried
      membership with that uuid: later memberships overwrite earlier ones. */
  lemma {:induction false} LastMembershipWins(pairs: seq<Pair>, reference: string, k: int,
                                             query: (string, int) -> Option<seq<Row>>, i: nat)
    requires MemberEmbeddings(pairs, reference, k, query).Ok?
    requires i < |pairs| && Queried(pairs[i])
    requires forall j :: i < j < |pairs| && Queried(pairs[j]) ==>
               pairs[j].membership.documentUuid != pairs[i].membership.documentUuid
    ensures var t := TableNameOf(pairs[i].dataSource).value;
            && query(SelectSql(t, reference), k).Some?
            && pairs[i].membership.documentUuid in MemberEmbeddings(pairs, reference, k, query).value
            && MemberEmbeddings(pairs, reference, k, query).value[pairs[i].membership.documentUuid]
               == query(SelectSql(t, reference), k).value
  {
    var init := pairs[..|pairs| - 1];
    var last := pairs[|pairs| - 1];
    if i < |pairs| - 1 {
      forall j | i < j < |init| && Queried(init[j])
        ensures init[j].membership.documentUuid != init[i].membership.documentUuid
      {
        assert init[j] == pairs[j];
      }
      assert init[i] == pairs[i];
      LastMembershipWins(init, reference, k, query, i);
    }
  }

  /** A membership whose table name is empty contributes nothing: removing
      it anywhere in the join results leaves the outcome unchanged. */
  lemma {:induction false} EmptyTableSkipped(before: seq<Pair>, p: Pair, after: seq<Pair>, reference: string, k: int,
                                            query: (string, int) -> Option<seq<Row>>)
    requires TableNameOf(p.dataSource) == Some("")
    ensures MemberEmbeddings(before + [p] + after, reference, k, query)
            == MemberEmbeddings(before + after, reference, k, query)
    decreases |after|
  {
    if after == [] {
      assert before + [p] + after == before + [p];
      assert (before + [p])[..|before + [p]| - 1] == before;
      assert before + after == before;
    } else {
      var whole := before + [p] + after;
      var short := before + after;
      var init := after[..|after| - 1];
      assert whole[..|whole| - 1] == before + [p] + init;
      assert whole[|whole| - 1] == after[|after| - 1];
      assert short[..|short| - 1] == before + init;
      assert short[|short| - 1] == after[|after| - 1];
      EmptyTableSkipped(before, p, init, reference, k, query);
    }
  }

  /** A data source created with a table name is queried for its members;
      one created with the default empty name is skipped. */
  lemma CreatedDataSourceQueried(m: Membership, uuid: Uuid, name: string, organization: Organization,
                                 documentTableName: string)
    ensures Queried(Pair(m, CreateDataSource(uuid, name, organization, documentTableName)))
            <==> documentTableName != ""
  {
  }

  /** The query text names its table and binds only `k`: the document uuid
      passed alongside it is never referred to. */
  lemma SqlIgnoresDocumentUuid(tableName: string, reference: string)
    requires ':' !in tableName && ':' !in reference
    ensures !Contains(SelectSql(tableName, reference), ":document_uuid")
    ensures EndsWith(SelectSql(tableName, reference), ":k")
  {
    var head := "SELECT uuid, embeddings FROM \"";
    var middle := "\" WHERE embeddings <-> ARRAY[";
    var tail := "]::vector < :k";
    var sql := SelectSql(tableName, reference);
    assert sql == head + (tableName + (middle + (reference + tail)));
    TailHasNoColonD();
    NoColonDPrefixed(reference, tail);
    NoColonDPrefixed(middle, reference + tail);
    NoColonDPrefixed(tableName, middle + (reference + tail));
    NoColonDPrefixed(head, tableName + (middle + (reference + tail)));
    NoColonDExcludesPlaceholder(sql);
    EndsWithAppend(head + tableName + middle + reference + "]::vector < ", ":k");
  }

  lemma TailHasNoColonD()
    ensures NoColonD("]::vector < :k")
  {
    var tail := "]::vector < :k";
    forall i | 0 <= i < |tail| - 1 && tail[i] == ':'
      ensures tail[i + 1] != 'd'
    {
      assert i == 1 || i == 2 || i == 12;
    }
  }

  /** No ':' in `s` is directly followed by 'd'. */
  predicate NoColonD(s: string) {
    forall i :: 0 <= i < |s| - 1 && s[i] == ':' ==> s[i + 1] != 'd'
  }

  lemma NoColonDExcludesPlaceholder(s: string)
    requires NoColonD(s)
    ensures !Contains(s, ":document_uuid")
  {
    if Contains(s, ":document_uuid") {
      var i :| 0 <= i <= |s| - |":document_uuid"| && OccursAt(s, ":document_uuid", i);
      PlaceholderStart(s, i);
      assert false;
    }
  }

  lemma PlaceholderStart(s: string, i: int)
    requires OccursAt(s, ":document_uuid", i)
    ensures 0 <= i < |s| - 1 && s[i] == ':' && s[i + 1] == 'd'
  {
    assert s[i..i + 14][0] == ':' && s[i..i + 14][1] == 'd';
  }

  lemma NoColonDPrefixed(a: string, b: string)
    requires ':' !in a && NoColonD(b)
    ensures NoColonD(a + b)
  {
    var s := a + b;
    forall i | 0 <= i < |s| - 1 && s[i] == ':'
      ensures s[i + 1] != 'd'
    {
      if i < |a| {
        assert false;
      } else {
        assert s[i] == b[i - |a|] && s[i + 1] == b[i + 1 - |a|];
      }
    }
  }
}
