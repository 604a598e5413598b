/**
  The interchange format written out: when raw JSON stands for a snapshot, field by
  field, without reading it. The validator accepts exactly the JSON that stands for a
  consistent, publishable snapshot; an encoder and its round trip are a special case.
 */
module SnapshotFormat {
  import opened Wrappers
  import opened Records
  import opened Snapshots

  /** The producer writes this instant in a form the host's parser reads back. */
  predicate Writable(h: Host, render: int -> string, t: int) {
    render(t) != "" && h.parse(render(t)) == Some(t)
  }

  predicate OptionWritable(h: Host, render: int -> string, at: Option<int>) {
    at.Some? ==> Writable(h, render, at.value)
  }

  predicate IssueWritable(h: Host, render: int -> string, r: IssueRow) {
    Writable(h, render, r.createdAt) && Writable(h, render, r.updatedAt) && OptionWritable(h, render, r.closedAt)
  }

  predicate PullWritable(h: Host, render: int -> string, r: PullRow) {
    && Writable(h, render, r.createdAt) && Writable(h, render, r.updatedAt)
    && OptionWritable(h, render, r.closedAt) && OptionWritable(h, render, r.mergedAt)
  }

  /** Every instant that occurs in the snapshot can be written; nothing is asked of other instants. */
  ghost predicate Faithful(h: Host, render: int -> string, s: Snapshot) {
    && Writable(h, render, s.sourceAt)
    && (forall i :: 0 <= i < |s.issues| ==> IssueWritable(h, render, s.issues[i].row))
    && (forall i :: 0 <= i < |s.pulls| ==> PullWritable(h, render, s.pulls[i].row))
  }

  function JsonInstant(render: int -> string, at: Option<int>): Json {
    match at
    case None => Null
    case Some(t) => Text(render(t))
  }

  function StateName(s: ItemState): string {
    match s
    case OPEN => "OPEN"
    case CLOSED => "CLOSED"
    case MERGED => "MERGED"
  }

  function RenderRepo(rec: Record<RepoFields>): Json {
    Object(map[
      "id" := Text(rec.id.text), "nameWithOwner" := Text(rec.row.nameWithOwner), "url" := Text(rec.row.url),
      "isPrivate" := Bool(rec.row.isPrivate), "owner" := Object(map["login" := Text(rec.row.ownerLogin)])])
  }

  /** The columns issues and pull requests have in common. */
  datatype Item = Item(
    id: Id, repositoryId: Id, number: int, url: string, isPrivate: bool,
    createdAt: int, updatedAt: int, closedAt: Option<int>, state: ItemState)

  function IssueItem(rec: Record<IssueRow>): Item {
    var r := rec.row;
    Item(rec.id, r.repositoryId, r.number, r.url, r.isPrivate, r.createdAt, r.updatedAt, r.closedAt, r.state)
  }

  function PullItem(rec: Record<PullRow>): Item {
    var r := rec.row;
    Item(rec.id, r.repositoryId, r.number, r.url, r.isPrivate, r.createdAt, r.updatedAt, r.closedAt, r.state)
  }

  /** The value is a non-empty text which the host reads as this instant. */
  predicate IsInstant(h: Host, j: Json, t: int) {
    j.Text? && j.text != "" && h.parse(j.text) == Some(t)
  }

  predicate IsOptionalInstant(h: Host, j: Json, at: Option<int>) {
    if at.Some? then IsInstant(h, j, at.value) else j == Null
  }

  /** These fields stand for the item, in the given repository. */
  ghost predicate StandsForItem(h: Host, repo: RepoFields, item: Item, f: map<string, Json>) {
    && ITEM_FIELDS <= f.Keys
    && f["node_id"] == Text(item.id.text) && f["repository_id"] == Text(item.repositoryId.text)
    && f["repository"] == Text(repo.nameWithOwner) && f["owner"] == Text(repo.ownerLogin)
    && f["repository_url"] == Text(repo.url) && f["is_private"] == Bool(item.isPrivate)
    && f["number"] == Integer(item.number) && f["url"] == Text(item.url)
    && IsInstant(h, f["created_at"], item.createdAt) && IsInstant(h, f["updated_at"], item.updatedAt)
    && IsOptionalInstant(h, f["closed_at"], item.closedAt) && f["state"] == Text(StateName(item.state))
  }

  ghost predicate StandsForIssue(h: Host, repo: RepoFields, rec: Record<IssueRow>, j: Json) {
    && j.Object? && j.fields.Keys == ITEM_FIELDS + {"state_reason"}
    && StandsForItem(h, repo, IssueItem(rec), j.fields)
    && j.fields["state_reason"] == if rec.row.stateReason.Some? then Text(rec.row.stateReason.value) else Null
  }

  ghost predicate StandsForPull(h: Host, repo: RepoFields, rec: Record<PullRow>, j: Json) {
    && j.Object? && j.fields.Keys == ITEM_FIELDS + {"merged_at", "merged"}
    && StandsForItem(h, repo, PullItem(rec), j.fields)
    && IsOptionalInstant(h, j.fields["merged_at"], rec.row.mergedAt) && j.fields["merged"] == Bool(rec.row.merged)
  }

  /** The raw snapshot says what s says: the header, and record by record in order. */
  ghost predicate StandsFor(h: Host, raw: Json, s: Snapshot) {
    && raw.Object?
    && raw.fields.Keys == {"schema_version", "generated_at", "account", "repositories", "issues", "pull_requests"}
    && raw.fields["schema_version"] == Integer(1)
    && IsInstant(h, raw.fields["generated_at"], s.sourceAt)
    && raw.fields["account"] == Object(map["login" := Text(s.login)])
    && raw.fields["repositories"] == List(RenderRepos(s))
    && raw.fields["issues"].List? && |raw.fields["issues"].items| == |s.issues|
    && raw.fields["pull_requests"].List? && |raw.fields["pull_requests"].items| == |s.pulls|
    && Resolves(s)
    && (forall i :: 0 <= i < |s.issues| ==>
          StandsForIssue(h, RowMap(s.repositories)[s.issues[i].row.repositoryId], s.issues[i],
                         raw.fields["issues"].items[i]))
    && (forall i :: 0 <= i < |s.pulls| ==>
          StandsForPull(h, RowMap(s.repositories)[s.pulls[i].row.repositoryId], s.pulls[i],
                        raw.fields["pull_requests"].items[i]))
  }

  function RenderItem(render: int -> string, repo: RepoFields, item: Item): (f: map<string, Json>)
    ensures f.Keys == ITEM_FIELDS
  {
    map[
      "node_id" := Text(item.id.text), "repository_id" := Text(item.repositoryId.text),
      "repository" := Text(repo.nameWithOwner), "owner" := Text(repo.ownerLogin),
      "repository_url" := Text(repo.url), "is_private" := Bool(item.isPrivate),
      "number" := Integer(item.number), "url" := Text(item.url),
      "created_at" := Text(render(item.createdAt)), "updated_at" := Text(render(item.updatedAt)),
      "closed_at" := JsonInstant(render, item.closedAt), "state" := Text(StateName(item.state))]
  }

  function RenderIssue(render: int -> string, repo: RepoFields, rec: Record<IssueRow>): Json {
    var item := RenderItem(render, repo, IssueItem(rec));
    Object(item["state_reason" := if rec.row.stateReason.Some? then Text(rec.row.stateReason.value) else Null])
  }

  function RenderPull(render: int -> string, repo: RepoFields, rec: Record<PullRow>): Json {
    var item := RenderItem(render, repo, PullItem(rec));
    Object(item["merged_at" := JsonInstant(render, rec.row.mergedAt)]["merged" := Bool(rec.row.merged)])
  }

  ghost predicate Resolves(s: Snapshot) {
    && (forall i :: 0 <= i < |s.issues| ==> s.issues[i].row.repositoryId in RowMap(s.repositories))
    && (forall i :: 0 <= i < |s.pulls| ==> s.pulls[i].row.repositoryId in RowMap(s.repositories))
  }

  ghost function RenderRepos(s: Snapshot): seq<Json> {
    seq(|s.repositories|, i requires 0 <= i < |s.repositories| => RenderRepo(s.repositories[i]))
  }

  ghost function RenderIssues(render: int -> string, s: Snapshot): seq<Json>
    requires Resolves(s)
  {
    seq(|s.issues|, i requires 0 <= i < |s.issues| =>
      RenderIssue(render, RowMap(s.repositories)[s.issues[i].row.repositoryId], s.issues[i]))
  }

  ghost function RenderPulls(render: int -> string, s: Snapshot): seq<Json>
    requires Resolves(s)
  {
    seq(|s.pulls|, i requires 0 <= i < |s.pulls| =>
      RenderPull(render, RowMap(s.repositories)[s.pulls[i].row.repositoryId], s.pulls[i]))
  }

  ghost function RenderSnapshot(render: int -> string, s: Snapshot): (j: Json)
    requires Resolves(s)
  {
    Object(map[
      "schema_version" := Integer(1),
      "generated_at" := Text(render(s.sourceAt)),
      "account" := Object(map["login" := Text(s.login)]),
      "repositories" := List(RenderRepos(s)),
      "issues" := List(RenderIssues(render, s)),
      "pull_requests" := List(RenderPulls(render, s))])
  }

  /** What a producer promises beyond the schema: named things, nothing owned by the account itself. */
  ghost predicate Publishable(h: Host, s: Snapshot) {
    && s.login != ""
    && (forall i :: 0 <= i < |s.repositories| ==> RepoPublishable(h, s.login, s.repositories[i]))
    && (forall i :: 0 <= i < |s.issues| ==> IssuePublishable(s.issues[i]))
    && (forall i :: 0 <= i < |s.pulls| ==> PullPublishable(s.pulls[i]))
  }

  ghost predicate RepoPublishable(h: Host, login: string, rec: Record<RepoFields>) {
    && RepoCheck(rec.row)
    && rec.id.text != "" && rec.row.nameWithOwner != "" && rec.row.ownerLogin != "" && rec.row.url != ""
    && h.casefold(rec.row.ownerLogin) != h.casefold(login)
  }

  ghost predicate IssuePublishable(rec: Record<IssueRow>) {
    && rec.id.text != "" && rec.row.repositoryId.text != "" && rec.row.url != ""
    && (rec.row.stateReason.Some? ==> !Blank(rec.row.stateReason.value))
  }

  ghost predicate PullPublishable(rec: Record<PullRow>) {
    && rec.id.text != "" && rec.row.repositoryId.text != "" && rec.row.url != ""
    && (rec.row.state == CLOSED ==> rec.row.mergedAt.None?)
  }

  ghost predicate RepoNamed(h: Host, accountKey: string, repo: RepoFields) {
    repo.nameWithOwner != "" && repo.ownerLogin != "" && repo.url != "" && h.casefold(repo.ownerLogin) != accountKey
  }

  lemma RepoRoundTrip(h: Host, login: string, rec: Record<RepoFields>)
    requires RepoPublishable(h, login, rec)
    ensures ReadRepo(h, h.casefold(login), RenderRepo(rec)) == Some(rec)
  {
    var j := RenderRepo(rec);
    assert j.fields.Keys == REPO_FIELDS;
    assert j.fields["owner"].fields.Keys == {"login"};
  }

  lemma ItemReads(h: Host, key: string, repos: map<Id, RepoFields>, item: Item, f: map<string, Json>)
    requires item.id.text != "" && item.repositoryId.text != "" && item.url != "" && item.number >= 1 && !item.isPrivate
    requires item.repositoryId in repos && RepoNamed(h, key, repos[item.repositoryId])
    requires StandsForItem(h, repos[item.repositoryId], item, f)
    ensures ItemOk(h, key, repos, f)
    ensures Instant(h, f["created_at"]) == Some(item.createdAt)
    ensures Instant(h, f["updated_at"]) == Some(item.updatedAt)
    ensures NullableInstant(h, f["closed_at"]) == Some(item.closedAt)
  {
  }

  /** What stands for a storable issue is read as that issue. */
  lemma IssueReads(h: Host, key: string, repos: map<Id, RepoFields>, rec: Record<IssueRow>, j: Json)
    requires IssueCheck(rec.row) && IssuePublishable(rec) && rec.row.repositoryId in repos
    requires RepoNamed(h, key, repos[rec.row.repositoryId])
    requires StandsForIssue(h, repos[rec.row.repositoryId], rec, j)
    ensures ReadIssue(h, key, repos, j) == Some(rec)
  {
    ItemReads(h, key, repos, IssueItem(rec), j.fields);
  }

  lemma PullReads(h: Host, key: string, repos: map<Id, RepoFields>, rec: Record<PullRow>, j: Json)
    requires PullCheck(rec.row) && PullPublishable(rec) && rec.row.repositoryId in repos
    requires RepoNamed(h, key, repos[rec.row.repositoryId])
    requires StandsForPull(h, repos[rec.row.repositoryId], rec, j)
    ensures ReadPull(h, key, repos, j) == Some(rec)
  {
    ItemReads(h, key, repos, PullItem(rec), j.fields);
  }

  // ------------------------------------------------------------ what is refused

  /** A repository that is read is the JSON its record is written as: public, external, named, and nothing more. */
  lemma RepoIsWritten(h: Host, key: string, j: Json)
    requires ReadRepo(h, key, j).Some?
    ensures j == RenderRepo(ReadRepo(h, key, j).value)
    ensures RepoNamed(h, key, ReadRepo(h, key, j).value.row)
  {
    var rec := ReadRepo(h, key, j).value;
    var f := j.fields;
    assert f["owner"].fields == map["login" := Text(rec.row.ownerLogin)];
    assert f == RenderRepo(rec).fields;
  }

  lemma ItemStands(h: Host, key: string, repos: map<Id, RepoFields>, f: map<string, Json>, item: Item)
    requires ITEM_FIELDS <= f.Keys && ItemOk(h, key, repos, f)
    requires item == Item(Id(f["node_id"].text), Id(f["repository_id"].text), f["number"].number, f["url"].text, false,
                          Instant(h, f["created_at"]).value, Instant(h, f["updated_at"]).value,
                          NullableInstant(h, f["closed_at"]).value, item.state)
    requires f["state"].text == StateName(item.state)
    ensures item.repositoryId in repos && StandsForItem(h, repos[item.repositoryId], item, f)
  {
  }

  /** An issue that is read stands for its record: every field says what the record says. */
  lemma IssueStands(h: Host, key: string, repos: map<Id, RepoFields>, j: Json)
    requires ReadIssue(h, key, repos, j).Some?
    ensures var rec := ReadIssue(h, key, repos, j).value;
      rec.row.repositoryId in repos && StandsForIssue(h, repos[rec.row.repositoryId], rec, j)
  {
    var rec := ReadIssue(h, key, repos, j).value;
    ItemStands(h, key, repos, j.fields, IssueItem(rec));
  }

  lemma PullStands(h: Host, key: string, repos: map<Id, RepoFields>, j: Json)
    requires ReadPull(h, key, repos, j).Some?
    ensures var rec := ReadPull(h, key, repos, j).value;
      rec.row.repositoryId in repos && StandsForPull(h, repos[rec.row.repositoryId], rec, j)
  {
    var rec := ReadPull(h, key, repos, j).value;
    ItemStands(h, key, repos, j.fields, PullItem(rec));
  }

  lemma HeaderStands(h: Host, raw: Json)
    requires HeaderOk(h, raw)
    ensures raw.fields["account"] == Object(map["login" := raw.fields["account"].fields["login"]])
  {
    var account := raw.fields["account"];
    assert account.fields == map["login" := account.fields["login"]];
  }

  lemma ReposStand(h: Host, raw: Json)
    requires Readable(h, raw)
    ensures raw.fields["repositories"] == List(RenderRepos(Normalized(h, raw)))
  {
    var s := Normalized(h, raw);
    var raws := raw.fields["repositories"].items;
    forall i | 0 <= i < |raws| ensures raws[i] == RenderRepo(s.repositories[i]) {
      RepoIsWritten(h, AccountKey(h, raw), raws[i]);
    }
    assert raws == RenderRepos(s);
  }

  /** Whatever is accepted stands for the snapshot it is normalised to. */
  lemma AcceptedStands(h: Host, raw: Json)
    requires Acceptable(h, raw)
    ensures StandsFor(h, raw, Normalized(h, raw))
  {
    var s := Normalized(h, raw);
    var key, repos := AccountKey(h, raw), RowMap(s.repositories);
    HeaderStands(h, raw);
    ReposStand(h, raw);
    hide ReadRepo, ReadIssue, ReadPull, StandsForIssue, StandsForPull, RowMap;
    forall i | 0 <= i < |s.issues|
      ensures s.issues[i].row.repositoryId in repos
      ensures StandsForIssue(h, repos[s.issues[i].row.repositoryId], s.issues[i], raw.fields["issues"].items[i])
    {
      IssueStands(h, key, repos, raw.fields["issues"].items[i]);
    }
    forall i | 0 <= i < |s.pulls|
      ensures s.pulls[i].row.repositoryId in repos
      ensures StandsForPull(h, repos[s.pulls[i].row.repositoryId], s.pulls[i], raw.fields["pull_requests"].items[i])
    {
      PullStands(h, key, repos, raw.fields["pull_requests"].items[i]);
    }
  }

  predicate SaysPrivate(j: Json) {
    j.Object? && (("isPrivate" in j.fields && j.fields["isPrivate"] != Bool(false))
                  || ("is_private" in j.fields && j.fields["is_private"] != Bool(false)))
  }

  lemma PublicRepository(rec: Record<RepoFields>)
    requires RepoCheck(rec.row)
    ensures !SaysPrivate(RenderRepo(rec))
  {
  }

  lemma PublicItem(h: Host, repo: RepoFields, item: Item, j: Json)
    requires j.Object? && StandsForItem(h, repo, item, j.fields) && !item.isPrivate
    requires j.fields.Keys <= ITEM_FIELDS + {"state_reason", "merged_at", "merged"}
    ensures !SaysPrivate(j)
  {
  }

  /** No record of an accepted snapshot says that it is private, or leaves it open. */
  lemma NothingPrivate(h: Host, raw: Json, i: nat)
    requires Acceptable(h, raw)
    ensures i < |raw.fields["repositories"].items| ==> !SaysPrivate(raw.fields["repositories"].items[i])
    ensures i < |raw.fields["issues"].items| ==> !SaysPrivate(raw.fields["issues"].items[i])
    ensures i < |raw.fields["pull_requests"].items| ==> !SaysPrivate(raw.fields["pull_requests"].items[i])
  {
    AcceptedStands(h, raw);
    AcceptedIsConsistent(h, raw);
    var s := Normalized(h, raw);
    var repos := RowMap(s.repositories);
    hide Normalized, StandsForItem, SaysPrivate, RowMap, RenderRepo;
    if i < |s.repositories| {
      PublicRepository(s.repositories[i]);
    }
    if i < |s.issues| {
      var j, rec := raw.fields["issues"].items[i], s.issues[i];
      assert StandsForIssue(h, repos[rec.row.repositoryId], rec, j) && IssueCheck(rec.row);
      PublicItem(h, repos[rec.row.repositoryId], IssueItem(rec), j);
    }
    if i < |s.pulls| {
      var j, rec := raw.fields["pull_requests"].items[i], s.pulls[i];
      assert StandsForPull(h, repos[rec.row.repositoryId], rec, j) && PullCheck(rec.row);
      PublicItem(h, repos[rec.row.repositoryId], PullItem(rec), j);
    }
  }

  // ------------------------------------------------------------ what is accepted

  lemma HeaderReads(h: Host, raw: Json, s: Snapshot)
    requires StandsFor(h, raw, s) && s.login != ""
    ensures HeaderOk(h, raw) && AccountKey(h, raw) == h.casefold(s.login)
    ensures Instant(h, raw.fields["generated_at"]) == Some(s.sourceAt)
    ensures raw.fields["account"].fields["login"] == Text(s.login)
  {
    hide StandsForIssue, StandsForPull, Resolves;
    assert raw.fields["account"].fields.Keys == {"login"};
  }

  lemma ReposRead(h: Host, s: Snapshot)
    requires Consistent(s) && Publishable(h, s)
    ensures var key := h.casefold(s.login);
      && AllRead(RenderRepos(s), j => ReadRepo(h, key, j))
      && Reads(RenderRepos(s), j => ReadRepo(h, key, j)) == s.repositories
      && forall id :: id in RowMap(s.repositories) ==> RepoNamed(h, key, RowMap(s.repositories)[id])
  {
    var key := h.casefold(s.login);
    var repos := RowMap(s.repositories);
    forall i | 0 <= i < |s.repositories|
      ensures ReadRepo(h, key, RenderRepos(s)[i]) == Some(s.repositories[i])
    {
      RepoRoundTrip(h, s.login, s.repositories[i]);
    }
    assert Reads(RenderRepos(s), j => ReadRepo(h, key, j)) == s.repositories;
    RowMapKeys(s.repositories);
    forall id | id in repos ensures RepoNamed(h, key, repos[id]) {
      var i :| 0 <= i < |s.repositories| && s.repositories[i].id == id;
      RowMapAt(s.repositories, i);
      assert RepoPublishable(h, s.login, s.repositories[i]);
    }
  }

  lemma IssuesRead(h: Host, key: string, raw: Json, s: Snapshot)
    requires StandsFor(h, raw, s) && Consistent(s) && Publishable(h, s)
    requires forall id :: id in RowMap(s.repositories) ==> RepoNamed(h, key, RowMap(s.repositories)[id])
    ensures var repos := RowMap(s.repositories);
      && AllRead(raw.fields["issues"].items, j => ReadIssue(h, key, repos, j))
      && Reads(raw.fields["issues"].items, j => ReadIssue(h, key, repos, j)) == s.issues
  {
    hide ReadIssue, StandsForIssue, StandsForPull, RenderRepos;
    var repos, raws := RowMap(s.repositories), raw.fields["issues"].items;
    forall i | 0 <= i < |s.issues| ensures ReadIssue(h, key, repos, raws[i]) == Some(s.issues[i]) {
      IssueReads(h, key, repos, s.issues[i], raws[i]);
    }
    assert Reads(raws, j => ReadIssue(h, key, repos, j)) == s.issues;
  }

  lemma PullsRead(h: Host, key: string, raw: Json, s: Snapshot)
    requires StandsFor(h, raw, s) && Consistent(s) && Publishable(h, s)
    requires forall id :: id in RowMap(s.repositories) ==> RepoNamed(h, key, RowMap(s.repositories)[id])
    ensures var repos := RowMap(s.repositories);
      && AllRead(raw.fields["pull_requests"].items, j => ReadPull(h, key, repos, j))
      && Reads(raw.fields["pull_requests"].items, j => ReadPull(h, key, repos, j)) == s.pulls
  {
    hide ReadPull, StandsForIssue, StandsForPull, RenderRepos;
    var repos, raws := RowMap(s.repositories), raw.fields["pull_requests"].items;
    forall i | 0 <= i < |s.pulls| ensures ReadPull(h, key, repos, raws[i]) == Some(s.pulls[i]) {
      PullReads(h, key, repos, s.pulls[i], raws[i]);
    }
    assert Reads(raws, j => ReadPull(h, key, repos, j)) == s.pulls;
  }

  /** What stands for a consistent, publishable snapshot is accepted and normalised to it. */
  lemma StandingIsAccepted(h: Host, raw: Json, s: Snapshot)
    requires StandsFor(h, raw, s) && Consistent(s) && Publishable(h, s)
    ensures Acceptable(h, raw) && Normalized(h, raw) == s
  {
    HeaderReads(h, raw, s);
    ReposRead(h, s);
    IssuesRead(h, h.casefold(s.login), raw, s);
    PullsRead(h, h.casefold(s.login), raw, s);
  }

  lemma ReadIsPublishable(h: Host, login: string, repos: map<Id, RepoFields>, j: Json)
    ensures var r := ReadRepo(h, h.casefold(login), j); r.Some? ==> RepoPublishable(h, login, r.value)
    ensures var r := ReadIssue(h, h.casefold(login), repos, j); r.Some? ==> IssuePublishable(r.value)
    ensures var r := ReadPull(h, h.casefold(login), repos, j); r.Some? ==> PullPublishable(r.value)
  {
  }

  /** Conversely nothing else gets through: an accepted snapshot is consistent and publishable. */
  lemma AcceptedIsPublishable(h: Host, raw: Json)
    requires Acceptable(h, raw)
    ensures Consistent(Normalized(h, raw)) && Publishable(h, Normalized(h, raw))
  {
    var s := Normalized(h, raw);
    AcceptedIsConsistent(h, raw);
    forall i | 0 <= i < |s.repositories| ensures RepoPublishable(h, s.login, s.repositories[i]) {
      ReadIsPublishable(h, s.login, map[], raw.fields["repositories"].items[i]);
    }
    forall i | 0 <= i < |s.issues| ensures IssuePublishable(s.issues[i]) {
      ReadIsPublishable(h, s.login, RowMap(s.repositories), raw.fields["issues"].items[i]);
    }
    forall i | 0 <= i < |s.pulls| ensures PullPublishable(s.pulls[i]) {
      ReadIsPublishable(h, s.login, RowMap(s.repositories), raw.fields["pull_requests"].items[i]);
    }
  }

  /**
    The boundary, in one sentence: a raw snapshot is accepted and normalised to s exactly when it stands for s
    and s is consistent and publishable.
   */
  lemma AcceptedIff(h: Host, raw: Json, s: Snapshot)
    ensures (Acceptable(h, raw) && Normalized(h, raw) == s)
       <==> (StandsFor(h, raw, s) && Consistent(s) && Publishable(h, s))
  {
    if Acceptable(h, raw) && Normalized(h, raw) == s {
      AcceptedStands(h, raw);
      AcceptedIsPublishable(h, raw);
    }
    if StandsFor(h, raw, s) && Consistent(s) && Publishable(h, s) {
      StandingIsAccepted(h, raw, s);
    }
  }

  // ------------------------------------------------------------ the round trip

  lemma RenderedItemStands(h: Host, render: int -> string, repo: RepoFields, item: Item)
    requires Writable(h, render, item.createdAt) && Writable(h, render, item.updatedAt)
    requires OptionWritable(h, render, item.closedAt)
    ensures StandsForItem(h, repo, item, RenderItem(render, repo, item))
  {
  }

  /** Extra fields do not disturb the common ones. */
  lemma StandsFrame(h: Host, repo: RepoFields, item: Item, f: map<string, Json>, name: string, j: Json)
    requires StandsForItem(h, repo, item, f) && name !in ITEM_FIELDS
    ensures StandsForItem(h, repo, item, f[name := j])
  {
  }

  lemma RenderedIssueStands(h: Host, render: int -> string, repo: RepoFields, rec: Record<IssueRow>)
    requires IssueWritable(h, render, rec.row)
    ensures StandsForIssue(h, repo, rec, RenderIssue(render, repo, rec))
  {
    hide StandsForItem, RenderItem, IssueItem;
    var item := RenderItem(render, repo, IssueItem(rec));
    var reason := if rec.row.stateReason.Some? then Text(rec.row.stateReason.value) else Null;
    IssueItemRendered(h, render, repo, rec);
    StandsFrame(h, repo, IssueItem(rec), item, "state_reason", reason);
    assert RenderIssue(render, repo, rec) == Object(item["state_reason" := reason]);
  }

  lemma IssueItemRendered(h: Host, render: int -> string, repo: RepoFields, rec: Record<IssueRow>)
    requires IssueWritable(h, render, rec.row)
    ensures StandsForItem(h, repo, IssueItem(rec), RenderItem(render, repo, IssueItem(rec)))
  {
    hide StandsForItem, RenderItem;
    RenderedItemStands(h, render, repo, IssueItem(rec));
  }

  lemma RenderedPullStands(h: Host, render: int -> string, repo: RepoFields, rec: Record<PullRow>)
    requires PullWritable(h, render, rec.row)
    ensures StandsForPull(h, repo, rec, RenderPull(render, repo, rec))
  {
    hide StandsForItem, RenderItem, PullItem, IsInstant;
    var item := RenderItem(render, repo, PullItem(rec));
    var at, merged := JsonInstant(render, rec.row.mergedAt), Bool(rec.row.merged);
    PullItemRendered(h, render, repo, rec);
    StandsFrame(h, repo, PullItem(rec), item, "merged_at", at);
    StandsFrame(h, repo, PullItem(rec), item["merged_at" := at], "merged", merged);
    assert RenderPull(render, repo, rec) == Object(item["merged_at" := at]["merged" := merged]);
    assert IsOptionalInstant(h, at, rec.row.mergedAt);
  }

  lemma PullItemRendered(h: Host, render: int -> string, repo: RepoFields, rec: Record<PullRow>)
    requires PullWritable(h, render, rec.row)
    ensures StandsForItem(h, repo, PullItem(rec), RenderItem(render, repo, PullItem(rec)))
    ensures rec.row.mergedAt.Some? ==> IsInstant(h, Text(render(rec.row.mergedAt.value)), rec.row.mergedAt.value)
  {
    hide StandsForItem, RenderItem;
    RenderedItemStands(h, render, repo, PullItem(rec));
  }

  lemma IssueRoundTrip(h: Host, render: int -> string, key: string, repos: map<Id, RepoFields>, rec: Record<IssueRow>)
    requires IssueWritable(h, render, rec.row)
    requires IssueCheck(rec.row) && IssuePublishable(rec) && rec.row.repositoryId in repos
    requires RepoNamed(h, key, repos[rec.row.repositoryId])
    ensures ReadIssue(h, key, repos, RenderIssue(render, repos[rec.row.repositoryId], rec)) == Some(rec)
  {
    RenderedIssueStands(h, render, repos[rec.row.repositoryId], rec);
    hide ReadIssue, RenderIssue, StandsForIssue, IssueCheck, IssuePublishable, RepoNamed, IssueWritable;
    IssueReads(h, key, repos, rec, RenderIssue(render, repos[rec.row.repositoryId], rec));
  }

  lemma PullRoundTrip(h: Host, render: int -> string, key: string, repos: map<Id, RepoFields>, rec: Record<PullRow>)
    requires PullWritable(h, render, rec.row)
    requires PullCheck(rec.row) && PullPublishable(rec) && rec.row.repositoryId in repos
    requires RepoNamed(h, key, repos[rec.row.repositoryId])
    ensures ReadPull(h, key, repos, RenderPull(render, repos[rec.row.repositoryId], rec)) == Some(rec)
  {
    RenderedPullStands(h, render, repos[rec.row.repositoryId], rec);
    hide ReadPull, RenderPull, StandsForPull, PullCheck, PullPublishable, RepoNamed, PullWritable;
    PullReads(h, key, repos, rec, RenderPull(render, repos[rec.row.repositoryId], rec));
  }

  lemma RenderedStands(h: Host, render: int -> string, s: Snapshot)
    requires Faithful(h, render, s) && Resolves(s)
    ensures StandsFor(h, RenderSnapshot(render, s), s)
  {
    var raw := RenderSnapshot(render, s);
    assert raw.fields.Keys == TOP_FIELDS;
    hide StandsForIssue, StandsForPull, RenderIssue, RenderPull, RenderRepos;
    forall i | 0 <= i < |s.issues|
      ensures StandsForIssue(h, RowMap(s.repositories)[s.issues[i].row.repositoryId], s.issues[i],
                             raw.fields["issues"].items[i])
    {
      RenderedIssueStands(h, render, RowMap(s.repositories)[s.issues[i].row.repositoryId], s.issues[i]);
    }
    forall i | 0 <= i < |s.pulls|
      ensures StandsForPull(h, RowMap(s.repositories)[s.pulls[i].row.repositoryId], s.pulls[i],
                            raw.fields["pull_requests"].items[i])
    {
      RenderedPullStands(h, render, RowMap(s.repositories)[s.pulls[i].row.repositoryId], s.pulls[i]);
    }
  }

  /** Every consistent, publishable snapshot survives the trip through the format unchanged. */
  lemma SnapshotRoundTrip(h: Host, render: int -> string, s: Snapshot)
    requires Faithful(h, render, s) && Consistent(s) && Publishable(h, s)
    ensures Acceptable(h, RenderSnapshot(render, s)) && Normalized(h, RenderSnapshot(render, s)) == s
  {
    RenderedStands(h, render, s);
    StandingIsAccepted(h, RenderSnapshot(render, s), s);
  }
}
