/**
 * The client side of the serverless API: how a fetch response is turned
 * into a value or a thrown error, and how the settings document is taken
 * out of the row the settings endpoint returns. The fetch transport itself
 * is not part of this model; a response is given as a value.
 */
module Api {
  import opened Base
  import opened Types

  /**
   * A fetch response as the client reads it: whether the status is 2xx, the
   * status code, the body as text, and what response.json() resolves to
   * (an Err when the body is not JSON).
   */
  datatype Response<T> = Response(ok: bool, status: nat, text: string, json: Result<T>)

  const FailurePrefix: string := "API call failed with status "

  /** handleResponse: throw on a non-2xx status, otherwise yield the parsed body. */
  function HandleResponse<T>(r: Response<T>): (res: Result<T>)
    ensures !r.ok ==> res == Err(FailurePrefix + IntToString(r.status) + ": " + r.text)
    ensures r.ok ==> res == r.json
  {
    if !r.ok then Err(FailurePrefix + IntToString(r.status) + ": " + r.text) else r.json
  }

  /** The error thrown for a failed call names its status code, and the body text follows. */
  lemma FailureNamesStatus<T>(r: Response<T>)
    requires !r.ok
    ensures var m := HandleResponse(r).message;
      && StartsWith(m, FailurePrefix)
      && ParseInt(m[|FailurePrefix|..]) == Some(r.status as int)
      && m[|m| - |r.text|..] == r.text
  {
    var m := HandleResponse(r).message;
    assert m[|FailurePrefix|..] == IntToString(r.status) + (": " + r.text);
    ParseIntOfIntToString(r.status, ": " + r.text);
  }

  /** The settings endpoint answers with the stored row; its `config` member may be missing. */
  datatype SettingsRow = SettingsRow(config: Option<TempleSettings>)

  /** getSettings: the `config` member of the parsed body, or the error handleResponse throws. */
  function GetSettings(r: Response<SettingsRow>): (res: Result<Option<TempleSettings>>)
    ensures res.Ok? <==> r.ok && r.json.Ok?
    ensures res.Ok? ==> res.value == r.json.value.config
    ensures res.Err? ==> res.message == HandleResponse(r).message
  {
    match HandleResponse(r)
    case Ok(row) => Ok(row.config)
    case Err(m) => Err(m)
  }
}
