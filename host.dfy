/**
 * The HTTP transfer the client hands to libcurl, and the world that answers it.
 * A transfer records everything `call_api` configures on the curl handle; the
 * host answers each transfer from the history of transfers so far, so a run of
 * the client is deterministic once the host is fixed. The host also stands for
 * the two foreign routines the client calls on request bodies: JSON
 * serialisation (`json::dump`) and gzip compression (`compress_string`).
 */
module Transport {
  import opened Wrappers
  import opened Json

  /** The TLS options set on the handle: peer and host verification, and the certificate and CA bundle when given. */
  datatype Tls = Tls(verifyPeer: bool, cert: Option<string>, cainfo: Option<string>)

  /** One transfer: method, URL, header lines in the order they were appended, posted body (if any) and TLS options. */
  datatype Transfer = Transfer(operation: string, url: string, headers: seq<string>, body: Option<string>, tls: Tls)

  /** A `CURLcode` other than `CURLE_OK`; libcurl's failure codes all lie far below 200. */
  type CurlFailure = c: int | 0 < c < 200 witness 1

  /**
   * What `curl_easy_perform` yields: a completed exchange with its status code,
   * raw header block and parsed body, or a failed transfer with its `CURLcode`
   * and the text libcurl writes into the error buffer.
   */
  datatype Reply = Completed(code: int, headerBlock: string, body: Json) | Failed(curlCode: CurlFailure, errorText: string)

  /** The remote side of every transfer the client makes. */
  class Host {
    /** The transfers performed so far, oldest first. */
    var sent: seq<Transfer>
    /** The reply to the last transfer of a history. */
    const respond: seq<Transfer> -> Reply
    /** `compress_string`. */
    const gzip: string -> string
    /** `json::dump`. */
    const dump: Json -> string

    constructor (respond: seq<Transfer> -> Reply, gzip: string -> string, dump: Json -> string)
      ensures sent == []
      ensures this.respond == respond && this.gzip == gzip && this.dump == dump
    {
      sent := [];
      this.respond := respond;
      this.gzip := gzip;
      this.dump := dump;
    }

    /** `curl_easy_perform`: the transfer joins the history and is answered. */
    method Perform(t: Transfer) returns (r: Reply)
      modifies this
      ensures sent == old(sent) + [t]
      ensures r == respond(sent)
    {
      sent := sent + [t];
      r := respond(sent);
    }
  }
}
