/** The browser the stores and pages run in: `localStorage`, the current path,
    and a log of the effects the code asks for (navigation, toasts, console
    output, requests, callback invocations). API results are inputs. */
module Platform {
  import opened Types
  import opened Json

  /** The body of an error response, as far as the code reads it. */
  datatype ErrorBody = ErrorBody(message: Option<string>, error: Option<string>)

  /** What an API call resolves to: a response body, an HTTP error status with
      its body and axios's own message, or a failure without a response. */
  datatype ApiOutcome<T> =
    | Ok(data: T)
    | HttpErr(status: int, body: ErrorBody, message: string)
    | NetErr(message: string)

  datatype ToastKind = ToastSuccess | ToastError

  datatype Event =
    | Navigate(path: string)                                     // router.push
    | SetLocation(href: string)                                  // window.location.href = ...
    | Toast(kind: ToastKind, text: string)
    | Console(text: string)
    | Request(verb: string, path: string, authorization: Option<string>)
    | Callback(name: string)                                     // a callback prop is invoked

  const TokenKey: string := "token"
  const UserKey: string := "user"
  const CartKey: string := "cart"

  /** `localStorage.getItem("token")` when it is a non-empty string, the only
      case in which the code treats it as present. */
  function StoredToken(storage: map<string, Json>): (r: Option<string>)
    ensures r.Some? ==> r.value != "" && TokenKey in storage && storage[TokenKey] == JStr(r.value)
    ensures r.None? ==> TokenKey !in storage || !storage[TokenKey].JStr? || storage[TokenKey].s == ""
  {
    if TokenKey in storage && storage[TokenKey].JStr? && storage[TokenKey].s != ""
    then Some(storage[TokenKey].s) else None
  }

  /** The shared browser state. */
  class Browser {
    var storage: map<string, Json>
    var pathname: string
    var events: seq<Event>

    constructor (storage0: map<string, Json>, pathname0: string)
      ensures storage == storage0 && pathname == pathname0 && events == []
    {
      storage, pathname, events := storage0, pathname0, [];
    }

    method Emit(e: Event)
      modifies this
      ensures events == old(events) + [e]
      ensures storage == old(storage) && pathname == old(pathname)
    {
      events := events + [e];
    }

    /** `localStorage.setItem(k, v)`. */
    method SetItem(k: string, v: Json)
      modifies this
      ensures storage == old(storage)[k := v]
      ensures events == old(events) && pathname == old(pathname)
    {
      storage := storage[k := v];
    }

    /** `localStorage.removeItem(k)`. */
    method RemoveItem(k: string)
      modifies this
      ensures storage == old(storage) - {k}
      ensures events == old(events) && pathname == old(pathname)
    {
      storage := storage - {k};
    }
  }
}
