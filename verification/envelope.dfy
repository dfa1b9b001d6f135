/** The JSON response envelope every API answer is wrapped in
    (`resp_data`, `success`, `error`, `resp_page_list`). The Flask `jsonify`
    serialisation around it is not modelled: an envelope is a record. */
module Envelope {
  import opened Common

  /** `{"success": ..., "code": ..., "data": ..., "message": ...}`; a Python
      `None` payload is `None`. */
  datatype Envelope<D> = Envelope(success: bool, code: int, data: Option<D>, message: string)

  /** The payload `resp_page_list` nests under "data". */
  datatype Page<T> = Page(items: seq<T>, total: int, page: int)

  /** `resp_data(data, code, message)`: the success flag is derived from the
      code, everything else is carried through unchanged. */
  function RespData<D>(data: Option<D>, code: int, message: string): (e: Envelope<D>)
    ensures e.success <==> code == 0
    ensures e.code == code && e.data == data && e.message == message
  {
    Envelope(code == 0, code, data, message)
  }

  /** `success(data)`: code 0 and the message "success". */
  function Success<D>(data: Option<D>): (e: Envelope<D>)
    ensures e.success && e.code == 0 && e.message == "success" && e.data == data
  {
    RespData(data, 0, "success")
  }

  /** `error(code, message)`: no payload; the flag follows the code, so
      `error(0, m)` still reports success. */
  function Error<D>(code: int, message: string): (e: Envelope<D>)
    ensures e.data == None && e.code == code && e.message == message
    ensures e.success <==> code == 0
  {
    RespData(None, code, message)
  }

  /** `resp_page_list(list_, total, page)`: a successful envelope whose data
      is the page record. */
  function RespPageList<T>(items: seq<T>, total: int, page: int): (e: Envelope<Page<T>>)
    ensures e.success && e.code == 0 && e.message == "success"
    ensures e.data == Some(Page(items, total, page))
  {
    RespData(Some(Page(items, total, page)), 0, "success")
  }
}
