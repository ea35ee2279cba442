/** What the browser gives the console: the two localStorage entries that hold the
    session, the page location, and fetch exchanges taken as abstract inputs. */
module Web {

  datatype Option<+T> = None | Some(value: T)

  /** Why a promise of the service layer rejects. */
  datatype Fault =
    | TransportFailure         // fetch itself threw: no HTTP response at all
    | SessionInvalid           // the refresh-and-retry path failed; both tokens were removed
    | HttpFailure(status: int) // a service function refused the status it got
    | MalformedBody            // response.json() threw, or gave no usable object

  datatype Result<+T> = Ok(value: T) | Err(fault: Fault)

  /** An HTTP response: its status and its body read as JSON of the shape the
      caller expects (None: `response.json()` throws or yields no usable object). */
  datatype Response<+T> = Response(status: int, json: Option<T>)

  /** The outcome of one `fetch`: a response, or a transport failure. */
  datatype Reply<+T> = Answered(response: Response<T>) | NetworkError

  /** `response.ok`. */
  predicate IsOk(status: int) {
    200 <= status <= 299
  }

  /** A request as handed to `fetch`. */
  datatype Request = Request(url: string, verb: string, headers: map<string, string>, body: Option<string>)

  /** JavaScript truthiness of a possibly-missing string: present and non-empty. */
  predicate Truthy(s: Option<string>) {
    s.Some? && s.value != ""
  }

  /** The two localStorage keys of the session. */
  datatype Key = AccessToken | RefreshToken

  function KeyName(k: Key): string {
    match k
    case AccessToken => "powershare_access_token"
    case RefreshToken => "powershare_refresh_token"
  }

  /** The session as stored: the value under each of the two keys, if any. */
  datatype Store = Store(access: Option<string>, refresh: Option<string>)

  /** The store once both keys are removed. */
  const Cleared := Store(None, None)

  /** The browser: localStorage (restricted to the session keys) and window.location.href. */
  class Browser {
    var store: Store
    var location: string

    constructor (store: Store, location: string)
      ensures this.store == store && this.location == location
    {
      this.store := store;
      this.location := location;
    }

    /** localStorage.getItem. */
    function GetItem(k: Key): (v: Option<string>)
      reads this
      ensures v == if k == AccessToken then store.access else store.refresh
    {
      match k
      case AccessToken => store.access
      case RefreshToken => store.refresh
    }

    /** localStorage.setItem: the other key is left alone. */
    method SetItem(k: Key, v: string)
      modifies this
      ensures store == if k == AccessToken then old(store).(access := Some(v)) else old(store).(refresh := Some(v))
      ensures GetItem(k) == Some(v)
      ensures forall other :: other != k ==> GetItem(other) == old(GetItem(other))
      ensures location == old(location)
    {
      match k
      case AccessToken => store := store.(access := Some(v));
      case RefreshToken => store := store.(refresh := Some(v));
    }

    /** localStorage.removeItem: the other key is left alone. */
    method RemoveItem(k: Key)
      modifies this
      ensures store == if k == AccessToken then old(store).(access := None) else old(store).(refresh := None)
      ensures GetItem(k) == None
      ensures forall other :: other != k ==> GetItem(other) == old(GetItem(other))
      ensures location == old(location)
    {
      match k
      case AccessToken => store := store.(access := None);
      case RefreshToken => store := store.(refresh := None);
    }

    /** Assigning window.location.href. */
    method Navigate(url: string)
      modifies this
      ensures location == url && store == old(store)
    {
      location := url;
    }
  }
}
