/**
 * What the database driver gives the tools, taken as input: the tools'
 * own logic starts where the driver's answer ends.
 */
module Driver {
  import opened Wrappers
  import opened Rows

  /** What executing a query yields: the exception raised, or the column names and rows. */
  datatype Fetch =
    | FetchFailed(message: string)
    | Fetched(columns: seq<string>, rows: seq<seq<SqlValue>>)

  /** A database: given a connection string and a query, what the cursor yields. */
  type Database = (string, string) -> Fetch

  /** The row `SELECT @@VERSION, DB_NAME()` fetched, or the exception the attempt raised. */
  datatype Probe =
    | ProbeFailed(message: string)
    | ProbeRow(row: Option<(string, string)>)

  /** The rows of a catalog query, or the exception the attempt raised. */
  datatype Catalog<T> =
    | CatalogFailed(message: string)
    | CatalogRows(rows: seq<T>)
}
