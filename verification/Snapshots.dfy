/**
  The boundary between acquisition and persistence: an untrusted JSON snapshot
  is accepted or refused as a whole, and an accepted one becomes three lists of
  normalised rows that meet every constraint of the database schema.
  Instants are whole microseconds since the Unix epoch.
 */
module Snapshots {
  import opened Wrappers
  import opened Records

  datatype Json =
    | Null
    | Bool(flag: bool)
    | Integer(number: int)
    | OtherNumber
    | Text(text: string)
    | List(items: seq<Json>)
    | Object(fields: map<string, Json>)

  /** String handling of the host language: RFC 3339 parsing and case folding. */
  datatype Host = Host(parse: string -> Option<int>, casefold: string -> string)

  datatype ItemState = OPEN | CLOSED | MERGED

  datatype RepoFields = RepoFields(
    nameWithOwner: string, ownerLogin: string, url: string, isPrivate: bool, isExternal: bool)

  datatype IssueRow = IssueRow(
    repositoryId: Id, number: int, url: string, isPrivate: bool,
    createdAt: int, updatedAt: int, closedAt: Option<int>,
    state: ItemState, stateReason: Option<string>)

  datatype PullRow = PullRow(
    repositoryId: Id, number: int, url: string, isPrivate: bool,
    createdAt: int, updatedAt: int, closedAt: Option<int>, mergedAt: Option<int>,
    state: ItemState, merged: bool)

  datatype Snapshot = Snapshot(
    sourceAt: int, login: string,
    repositories: seq<Record<RepoFields>>,
    issues: seq<Record<IssueRow>>,
    pulls: seq<Record<PullRow>>)

  const MAX_STATE_REASON_LENGTH := 64

  // ---------------------------------------------------------------- schema

  /** The CHECK constraints of table repositories. */
  predicate RepoCheck(r: RepoFields) {
    !r.isPrivate && r.isExternal
  }

  /** The three CHECK constraints of table issues. */
  predicate IssueCheck(r: IssueRow) {
    && r.number > 0
    && !r.isPrivate
    && r.state in {OPEN, CLOSED}
    && (r.stateReason.Some? ==>
          1 <= |r.stateReason.value| <= 64 && exists c :: c in r.stateReason.value && c != ' ')
    && ((r.state == OPEN && r.closedAt.None? && r.stateReason !in {Some("COMPLETED"), Some("NOT_PLANNED")})
        || (r.state == CLOSED && r.closedAt.Some? && r.stateReason.Some? && r.stateReason != Some("REOPENED")))
  }

  /** The CHECK constraints of table pull_requests. */
  predicate PullCheck(r: PullRow) {
    && r.number > 0
    && !r.isPrivate
    && ((r.state == OPEN && !r.merged && r.closedAt.None? && r.mergedAt.None?)
        || (r.state == CLOSED && !r.merged && r.closedAt.Some?)
        || (r.state == MERGED && r.merged && r.closedAt.Some? && r.mergedAt.Some?))
  }

  /** No node id is used twice, within a collection or across collections. */
  ghost predicate UniqueIds(s: Snapshot) {
    && Distinct(s.repositories) && Distinct(s.issues) && Distinct(s.pulls)
    && Ids(s.repositories) !! Ids(s.issues)
    && (Ids(s.repositories) + Ids(s.issues)) !! Ids(s.pulls)
  }

  /** What persistence relies on: unique ids everywhere, references that resolve, rows the schema takes. */
  ghost predicate Consistent(s: Snapshot) {
    && UniqueIds(s)
    && (forall i :: 0 <= i < |s.repositories| ==> RepoCheck(s.repositories[i].row))
    && (forall i :: 0 <= i < |s.issues| ==>
          IssueCheck(s.issues[i].row) && s.issues[i].row.repositoryId in RowMap(s.repositories))
    && (forall i :: 0 <= i < |s.pulls| ==>
          PullCheck(s.pulls[i].row) && s.pulls[i].row.repositoryId in RowMap(s.repositories))
  }

  // ------------------------------------------------------- single records

  predicate NonEmptyText(j: Json) {
    j.Text? && j.text != ""
  }

  /** Whitespace as Python's str.strip sees it. */
  predicate IsSpace(c: char) {
    || '\t' <= c <= '\r' || '\U{1c}' <= c <= ' ' || c == '\U{85}' || c == '\U{a0}'
    || c == '\U{1680}' || '\U{2000}' <= c <= '\U{200a}' || c == '\U{2028}' || c == '\U{2029}'
    || c == '\U{202f}' || c == '\U{205f}' || c == '\U{3000}'
  }

  /** By code point. */
  lemma SpacesByCode(c: char)
    ensures IsSpace(c) <==> c as int in {9, 10, 11, 12, 13, 28, 29, 30, 31, 32, 133, 160, 5760, 8192, 8193, 8194, 8195,
                                         8196, 8197, 8198, 8199, 8200, 8201, 8202, 8232, 8233, 8239, 8287, 12288}
  {
  }

  predicate Blank(s: string) {
    forall c :: c in s ==> IsSpace(c)
  }

  /** A required instant. */
  function Instant(h: Host, j: Json): Option<int> {
    if NonEmptyText(j) then h.parse(j.text) else None
  }

  /** A nullable instant: the outer None is a refusal, the inner one is null. */
  function NullableInstant(h: Host, j: Json): Option<Option<int>> {
    if j.Null? then Some(None)
    else
      match Instant(h, j)
      case None => None
      case Some(at) => Some(Some(at))
  }

  /** An object whose field names are exactly keys. */
  predicate ExactObject(j: Json, keys: set<string>) {
    j.Object? && j.fields.Keys == keys
  }

  const TOP_FIELDS: set<string> :=
    {"schema_version", "generated_at", "account", "repositories", "issues", "pull_requests"}

  const REPO_FIELDS: set<string> := {"id", "nameWithOwner", "url", "isPrivate", "owner"}

  const ITEM_FIELDS: set<string> :=
    {"node_id", "repository_id", "repository", "owner", "repository_url", "is_private", "number",
     "url", "created_at", "updated_at", "closed_at", "state"}

  function ReadRepo(h: Host, accountKey: string, j: Json): Option<Record<RepoFields>> {
    if !ExactObject(j, REPO_FIELDS) then None
    else
      var f := j.fields;
      if && NonEmptyText(f["id"])
         && f["isPrivate"] == Bool(false)
         && ExactObject(f["owner"], {"login"})
         && NonEmptyText(f["owner"].fields["login"])
         && h.casefold(f["owner"].fields["login"].text) != accountKey
         && NonEmptyText(f["nameWithOwner"])
         && NonEmptyText(f["url"])
      then
        Some(Record(Id(f["id"].text),
                    RepoFields(f["nameWithOwner"].text, f["owner"].fields["login"].text, f["url"].text,
                               false, true)))
      else None
  }

  /** The tests issues and pull requests share. */
  predicate ItemOk(h: Host, accountKey: string, repos: map<Id, RepoFields>, f: map<string, Json>)
    requires ITEM_FIELDS <= f.Keys
  {
    && NonEmptyText(f["node_id"])
    && NonEmptyText(f["repository_id"])
    && Id(f["repository_id"].text) in repos
    && f["is_private"] == Bool(false)
    && NonEmptyText(f["owner"])
    && h.casefold(f["owner"].text) != accountKey
    && f["owner"].text == repos[Id(f["repository_id"].text)].ownerLogin
    && f["repository"] == Text(repos[Id(f["repository_id"].text)].nameWithOwner)
    && f["repository_url"] == Text(repos[Id(f["repository_id"].text)].url)
    && f["number"].Integer? && f["number"].number >= 1
    && NonEmptyText(f["repository"]) && NonEmptyText(f["repository_url"])
    && NonEmptyText(f["url"]) && NonEmptyText(f["state"])
    && Instant(h, f["created_at"]).Some?
    && Instant(h, f["updated_at"]).Some?
    && NullableInstant(h, f["closed_at"]).Some?
  }

  predicate ReasonOk(j: Json) {
    j.Null? || (NonEmptyText(j) && |j.text| <= MAX_STATE_REASON_LENGTH && !Blank(j.text))
  }

  function ReadIssue(h: Host, accountKey: string, repos: map<Id, RepoFields>, j: Json): Option<Record<IssueRow>> {
    if !ExactObject(j, ITEM_FIELDS + {"state_reason"}) then None
    else
      var f := j.fields;
      if !ItemOk(h, accountKey, repos, f) || !ReasonOk(f["state_reason"]) then None
      else
        var closedAt := NullableInstant(h, f["closed_at"]).value;
        var reason := if f["state_reason"].Null? then None else Some(f["state_reason"].text);
        var build := (state: ItemState) =>
          Some(Record(Id(f["node_id"].text),
                      IssueRow(Id(f["repository_id"].text), f["number"].number, f["url"].text, false,
                               Instant(h, f["created_at"]).value, Instant(h, f["updated_at"]).value,
                               closedAt, state, reason)));
        if f["state"].text == "OPEN" then
          if closedAt.Some? || reason == Some("COMPLETED") || reason == Some("NOT_PLANNED") then None
          else build(OPEN)
        else if f["state"].text == "CLOSED" then
          if closedAt.None? || reason == None || reason == Some("REOPENED") then None
          else build(CLOSED)
        else None
  }

  function ReadPull(h: Host, accountKey: string, repos: map<Id, RepoFields>, j: Json): Option<Record<PullRow>> {
    if !ExactObject(j, ITEM_FIELDS + {"merged_at", "merged"}) then None
    else
      var f := j.fields;
      if !ItemOk(h, accountKey, repos, f) || !f["merged"].Bool? || NullableInstant(h, f["merged_at"]).None? then None
      else
        var closedAt := NullableInstant(h, f["closed_at"]).value;
        var mergedAt := NullableInstant(h, f["merged_at"]).value;
        var merged := f["merged"].flag;
        var build := (state: ItemState) =>
          Some(Record(Id(f["node_id"].text),
                      PullRow(Id(f["repository_id"].text), f["number"].number, f["url"].text, false,
                              Instant(h, f["created_at"]).value, Instant(h, f["updated_at"]).value,
                              closedAt, mergedAt, state, merged)));
        if f["state"].text == "OPEN" then
          if merged || closedAt.Some? || mergedAt.Some? then None else build(OPEN)
        else if f["state"].text == "CLOSED" then
          if merged || closedAt.None? || mergedAt.Some? then None else build(CLOSED)
        else if f["state"].text == "MERGED" then
          if !merged || closedAt.None? || mergedAt.None? then None else build(MERGED)
        else None
  }

  // ------------------------------------------------------ whole snapshots

  ghost predicate AllRead<R>(raws: seq<Json>, read: Json -> Option<Record<R>>) {
    forall i :: 0 <= i < |raws| ==> read(raws[i]).Some?
  }

  /** The records a list of readable values stands for, in order. */
  ghost function Reads<R>(raws: seq<Json>, read: Json -> Option<Record<R>>): seq<Record<R>>
    requires AllRead(raws, read)
  {
    seq(|raws|, i requires 0 <= i < |raws| => read(raws[i]).value)
  }

  predicate HeaderOk(h: Host, raw: Json) {
    && ExactObject(raw, TOP_FIELDS)
    && raw.fields["schema_version"] == Integer(1)
    && Instant(h, raw.fields["generated_at"]).Some?
    && ExactObject(raw.fields["account"], {"login"})
    && NonEmptyText(raw.fields["account"].fields["login"])
    && raw.fields["repositories"].List? && raw.fields["issues"].List? && raw.fields["pull_requests"].List?
  }

  function AccountKey(h: Host, raw: Json): string
    requires HeaderOk(h, raw)
  {
    h.casefold(raw.fields["account"].fields["login"].text)
  }

  /** Every record is readable on its own, each item's repository is in the snapshot. */
  ghost predicate Readable(h: Host, raw: Json) {
    && HeaderOk(h, raw)
    && (var key := AccountKey(h, raw);
        && AllRead(raw.fields["repositories"].items, j => ReadRepo(h, key, j))
        && (var repos := RowMap(Reads(raw.fields["repositories"].items, j => ReadRepo(h, key, j)));
            && AllRead(raw.fields["issues"].items, j => ReadIssue(h, key, repos, j))
            && AllRead(raw.fields["pull_requests"].items, j => ReadPull(h, key, repos, j))))
  }

  ghost function Normalized(h: Host, raw: Json): Snapshot
    requires Readable(h, raw)
  {
    var key := AccountKey(h, raw);
    var repositories := Reads(raw.fields["repositories"].items, j => ReadRepo(h, key, j));
    var repos := RowMap(repositories);
    Snapshot(
      Instant(h, raw.fields["generated_at"]).value,
      raw.fields["account"].fields["login"].text,
      repositories,
      Reads(raw.fields["issues"].items, j => ReadIssue(h, key, repos, j)),
      Reads(raw.fields["pull_requests"].items, j => ReadPull(h, key, repos, j)))
  }

  /** The snapshots the boundary lets through. */
  ghost predicate Acceptable(h: Host, raw: Json) {
    Readable(h, raw) && UniqueIds(Normalized(h, raw))
  }

  datatype SourceError = SourceError

  /** Reads one collection while growing the set of ids seen so far; stops at the first bad record. */
  method Collect<R>(raws: seq<Json>, read: Json -> Option<Record<R>>, seen: set<Id>)
    returns (ok: bool, out: seq<Record<R>>, ids: set<Id>)
    ensures ok <==> AllRead(raws, read) && Distinct(Reads(raws, read)) && Ids(Reads(raws, read)) !! seen
    ensures ok ==> out == Reads(raws, read) && ids == seen + Ids(out)
  {
    out, ids := [], seen;
    for i := 0 to |raws|
      invariant AllRead(raws[..i], read)
      invariant out == Reads(raws[..i], read)
      invariant Distinct(out) && Ids(out) !! seen
      invariant ids == seen + Ids(out)
    {
      match read(raws[i]) {
        case None =>
          return false, out, ids;
        case Some(rec) =>
          if rec.id in ids {
            if AllRead(raws, read) {
              ghost var all := Reads(raws, read);
              assert all[i] == rec;
              assert forall k :: 0 <= k < i ==> all[k] == out[k] by {
                assert forall k :: 0 <= k < i ==> raws[..i][k] == raws[k];
              }
            }
            return false, out, ids;
          }
          assert raws[..i + 1] == raws[..i] + [raws[i]];
          IdsSnoc(out, rec);
          out := out + [rec];
          ids := ids + {rec.id};
      }
    }
    assert raws[..|raws|] == raws;
    ok := true;
  }

  /** Refuses or normalises a raw snapshot: repositories first, then the items that refer to them. */
  method ValidateSnapshot(h: Host, raw: Json) returns (r: Result<Snapshot, SourceError>)
    ensures r.Ok? <==> Acceptable(h, raw)
    ensures r.Ok? ==> r.value == Normalized(h, raw)
  {
    if !HeaderOk(h, raw) {
      return Err(SourceError);
    }
    var body := raw.fields;
    var key := AccountKey(h, raw);
    var ok, repositories, seen := Collect(body["repositories"].items, j => ReadRepo(h, key, j), {});
    if !ok {
      return Err(SourceError);
    }
    var repositoriesById := RowMap(repositories);
    var issues;
    ok, issues, seen := Collect(body["issues"].items, j => ReadIssue(h, key, repositoriesById, j), seen);
    if !ok {
      return Err(SourceError);
    }
    var pulls;
    ok, pulls, seen := Collect(body["pull_requests"].items, j => ReadPull(h, key, repositoriesById, j), seen);
    if !ok {
      return Err(SourceError);
    }
    r := Ok(Snapshot(
      Instant(h, body["generated_at"]).value, body["account"].fields["login"].text,
      repositories, issues, pulls));
  }

  // A row that was read meets the constraints of its table.

  lemma ReadIssueMeetsSchema(h: Host, key: string, repos: map<Id, RepoFields>, j: Json)
    requires ReadIssue(h, key, repos, j).Some?
    ensures IssueCheck(ReadIssue(h, key, repos, j).value.row)
    ensures ReadIssue(h, key, repos, j).value.row.repositoryId in repos
  {
    var row := ReadIssue(h, key, repos, j).value.row;
    if row.stateReason.Some? {
      var c :| c in row.stateReason.value && !IsSpace(c);
      assert c != ' ';
    }
  }

  lemma ReadPullMeetsSchema(h: Host, key: string, repos: map<Id, RepoFields>, j: Json)
    requires ReadPull(h, key, repos, j).Some?
    ensures PullCheck(ReadPull(h, key, repos, j).value.row)
    ensures ReadPull(h, key, repos, j).value.row.repositoryId in repos
  {
  }

  /** Whatever passes the boundary can be stored: the schema never refuses an accepted snapshot. */
  lemma AcceptedIsConsistent(h: Host, raw: Json)
    requires Acceptable(h, raw)
    ensures Consistent(Normalized(h, raw))
  {
    var s := Normalized(h, raw);
    var key := AccountKey(h, raw);
    var repos := RowMap(s.repositories);
    forall i | 0 <= i < |s.issues|
      ensures IssueCheck(s.issues[i].row) && s.issues[i].row.repositoryId in RowMap(s.repositories)
    {
      ReadIssueMeetsSchema(h, key, repos, raw.fields["issues"].items[i]);
    }
    forall i | 0 <= i < |s.pulls|
      ensures PullCheck(s.pulls[i].row) && s.pulls[i].row.repositoryId in RowMap(s.repositories)
    {
      ReadPullMeetsSchema(h, key, repos, raw.fields["pull_requests"].items[i]);
    }
  }
}
