/**
 * The request and response records of the HTTP layer (include/http_server.hpp).
 * A response is an object the handlers update in place; ResponseData is its value,
 * which the dispatcher and the serialiser work on.
 */
module HttpMessage {
  import opened Json

  /**
   * A parsed request: the path has its query string cut off; maps are last-write-wins.
   * The field the source calls `method` is `httpMethod` here (`method` is a keyword).
   */
  datatype Request = Request(
    httpMethod: string,
    path: string,
    version: string,
    headers: map<string, string>,
    body: string,
    queryParams: map<string, string>)

  datatype ResponseData = ResponseData(
    statusCode: int,
    statusText: string,
    headers: map<string, string>,
    body: string)

  const ContentType := "Content-Type"

  /** A default-constructed HttpResponse. */
  const FreshResponse := ResponseData(200, "OK", map[], "")

  /** The value `setJson(j)` leaves. */
  function WithJson(r: ResponseData, j: Json): ResponseData {
    r.(body := Dump(j), headers := r.headers[ContentType := "application/json"])
  }

  /** The value `setText(t)` leaves. */
  function WithText(r: ResponseData, text: string): ResponseData {
    r.(body := text, headers := r.headers[ContentType := "text/plain"])
  }

  /**
   * setText touches only the body and the Content-Type header, and applying it twice is
   * the same as applying it once.
   */
  lemma WithTextFrame(r: ResponseData, text: string)
    ensures WithText(r, text).statusCode == r.statusCode
    ensures WithText(r, text).statusText == r.statusText
    ensures WithText(r, text).body == text
    ensures WithText(r, text).headers.Keys == r.headers.Keys + {ContentType}
    ensures WithText(r, text).headers[ContentType] == "text/plain"
    ensures forall k :: k in r.headers && k != ContentType ==> WithText(r, text).headers[k] == r.headers[k]
    ensures WithText(WithText(r, text), text) == WithText(r, text)
  {
  }

  /** setJson touches only the body and the Content-Type header; it is idempotent too. */
  lemma WithJsonFrame(r: ResponseData, j: Json)
    ensures WithJson(r, j).statusCode == r.statusCode
    ensures WithJson(r, j).statusText == r.statusText
    ensures WithJson(r, j).body == Dump(j)
    ensures WithJson(r, j).headers.Keys == r.headers.Keys + {ContentType}
    ensures WithJson(r, j).headers[ContentType] == "application/json"
    ensures forall k :: k in r.headers && k != ContentType ==> WithJson(r, j).headers[k] == r.headers[k]
    ensures WithJson(WithJson(r, j), j) == WithJson(r, j)
  {
  }

  /** HttpResponse: the object a handler receives and writes its result into. */
  class Response {
    var statusCode: int
    var statusText: string
    var headers: map<string, string>
    var body: string

    function Data(): ResponseData
      reads this
    {
      ResponseData(statusCode, statusText, headers, body)
    }

    /** The member defaults: 200 "OK", no headers, empty body. */
    constructor ()
      ensures statusCode == 200 && statusText == "OK"
      ensures headers == map[] && body == ""
      ensures Data() == FreshResponse
    {
      statusCode := 200;
      statusText := "OK";
      headers := map[];
      body := "";
    }

    method SetJson(j: Json)
      modifies this
      ensures body == Dump(j)
      ensures headers == old(headers)[ContentType := "application/json"]
      ensures statusCode == old(statusCode) && statusText == old(statusText)
      ensures Data() == WithJson(old(Data()), j)
    {
      body := Dump(j);
      headers := headers[ContentType := "application/json"];
    }

    method SetText(text: string)
      modifies this
      ensures body == text
      ensures headers == old(headers)[ContentType := "text/plain"]
      ensures statusCode == old(statusCode) && statusText == old(statusText)
      ensures Data() == WithText(old(Data()), text)
    {
      body := text;
      headers := headers[ContentType := "text/plain"];
    }
  }
}
