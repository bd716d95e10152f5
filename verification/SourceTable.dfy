/** Rows of the `sources` table and the repository operations on them. */
module SourceTable {
  import opened Options

  datatype SourceType = PDF | TXT | DOCX | Markdown | URL

  datatype Status = Uploading | Uploaded | Pending | Processing | Ready | Failed

  /** A job id is a UUID; the model numbers them in the order they are drawn. */
  type JobId = nat

  /** `path` is `minio_path`, with "" for none; `job` is `job_id`, with None for "". */
  datatype Row = Row(id: nat, project: int, owner: string, name: string, kind: SourceType,
                     status: Status, size: int, path: string, job: Option<JobId>, url: string)

  datatype Request = Request(project: int, owner: string, name: string, kind: SourceType,
                             size: int, url: string)

  type Rows = map<nat, Row>

  function NewRow(id: nat, req: Request): Row {
    Row(id, req.project, req.owner, req.name, req.kind, Uploading, req.size, "", None, req.url)
  }

  function Find(rows: Rows, id: nat, project: int, owner: string): Option<Row> {
    if id in rows && rows[id].project == project && rows[id].owner == owner
    then Some(rows[id]) else None
  }

  /** No row of the table has this id, project and owner. */
  predicate NoSuchRow(rows: Rows, id: nat, project: int, owner: string) {
    id !in rows || rows[id].project != project || rows[id].owner != owner
  }

  /** The ids `CountByProjectIDAndOwnerID` counts. */
  function IdsOf(rows: Rows, project: int, owner: string): set<nat> {
    set id | id in rows && rows[id].project == project && rows[id].owner == owner
  }

  /** An update of a missing row succeeds and changes nothing. */
  function SetStatus(rows: Rows, id: nat, status: Status, job: Option<JobId>): Rows {
    if id in rows then rows[id := rows[id].(status := status, job := job)] else rows
  }

  function SetPath(rows: Rows, id: nat, path: string): Rows {
    if id in rows then rows[id := rows[id].(path := path)] else rows
  }

  function Remove(rows: Rows, id: nat): Rows {
    rows - {id}
  }
}
