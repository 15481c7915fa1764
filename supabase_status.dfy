/**
  * The connection banner (app/components/supabase-status.tsx): on mount it
  * queries a table that does not exist; "relation does not exist" (code
  * 42P01) or no error means the backend answered, any other error or an
  * exception means it did not. The query's outcome is an input.
  */
module ConnectionStatus {
  import opened Wrappers

  datatype Status = Loading | Connected | ConnectionError

  /** An error object returned by the query: its Postgres `code` and its `message`. */
  datatype QueryError = QueryError(code: string, message: string)

  /** What `select("*").limit(1)` did: threw, or returned with or without an error. */
  datatype QueryOutcome = QueryThrew | QueryReturned(error: Option<QueryError>)

  const MissingRelationCode := "42P01"
  const ConnectFailedText := "Failed to connect to Supabase"
  const FallbackErrorText := "Could not connect to Supabase"

  /** The alert shown: its title, its description (empty when it has none) and whether it is the destructive variant. */
  datatype Banner = Banner(title: string, description: string, destructive: bool)

  /**
    * The render: a neutral banner while loading, the destructive one with
    * `errorMessage || "Could not connect to Supabase"` on error, the green
    * one when connected. An empty message counts as absent.
    */
  function Display(status: Status, errorMessage: Option<string>): (b: Banner)
    ensures b.destructive <==> status == ConnectionError
    ensures status == ConnectionError ==> b.description != ""
    ensures status == ConnectionError && errorMessage.Some? && errorMessage.value != "" ==>
              b.description == errorMessage.value
    ensures status == ConnectionError && (errorMessage.None? || errorMessage.value == "") ==>
              b.description == FallbackErrorText
  {
    match status
    case Loading => Banner("Checking Supabase connection...", "", false)
    case ConnectionError =>
      var shown := if errorMessage.Some? && errorMessage.value != "" then errorMessage.value else FallbackErrorText;
      Banner("Connection Error", shown, true)
    case Connected => Banner("Supabase Connected", "Your application is successfully connected to Supabase", false)
  }

  /** The component's state: `status` and `errorMessage`. */
  class SupabaseStatus {
    var status: Status
    var errorMessage: Option<string>

    constructor ()
      ensures status == Loading && errorMessage == None
    {
      status := Loading;
      errorMessage := None;
    }

    /** The banner rendered for the current state: destructive exactly on error, and then never empty. */
    function Shown(): (b: Banner)
      reads this
      ensures b.destructive <==> status == ConnectionError
      ensures status == ConnectionError ==> b.description != ""
    {
      Display(status, errorMessage)
    }

    /** `checkConnection` with the query's outcome; it always leaves `loading`. */
    method CheckConnection(outcome: QueryOutcome)
      modifies this
      ensures outcome == QueryReturned(None) ==> status == Connected && errorMessage == old(errorMessage)
      ensures outcome.QueryReturned? && outcome.error.Some? && outcome.error.value.code == MissingRelationCode ==>
                status == Connected && errorMessage == old(errorMessage)
      ensures outcome.QueryReturned? && outcome.error.Some? && outcome.error.value.code != MissingRelationCode ==>
                status == ConnectionError && errorMessage == Some(outcome.error.value.message)
      ensures outcome == QueryThrew ==> status == ConnectionError && errorMessage == Some(ConnectFailedText)
      ensures status != Loading
    {
      match outcome {
        case QueryThrew =>
          status := ConnectionError;
          errorMessage := Some(ConnectFailedText);
        case QueryReturned(error) =>
          if error.Some? && error.value.code == MissingRelationCode {
            status := Connected;
          } else if error.Some? && error.value.code != MissingRelationCode {
            status := ConnectionError;
            errorMessage := Some(error.value.message);
          } else {
            status := Connected;
          }
      }
    }
  }
}
