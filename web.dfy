/** The browser and server facts every page shares: the user object, the two
    durable storage items, the current location and the shape of a reply from
    the REST backend. */
module Web {
  import opened Js

  /** A user object as the client holds it: field name to value. */
  type User = map<string, string>

  /** `user.currentRole`, "" when the field is missing or empty (both falsy). */
  function RoleOf(u: User): string {
    if "currentRole" in u then u["currentRole"] else ""
  }

  /** `user._id` */
  function IdOf(u: User): string {
    if "_id" in u then u["_id"] else ""
  }

  /** The two items of durable storage the client uses: the `token` item and
      the `user` item (the object it serializes). `None` is a missing item. */
  datatype Durable = Durable(token: Option<string>, user: Option<User>)

  const Empty := Durable(None, None)

  /** `localStorage.getItem('token')` is truthy. */
  predicate HasToken(d: Durable) {
    d.token.Some? && d.token.value != ""
  }

  /** The browser window: its durable storage and the path of its location. */
  class Browser {
    var storage: Durable
    var location: string

    constructor (storage: Durable, location: string)
      ensures this.storage == storage && this.location == location
    {
      this.storage := storage;
      this.location := location;
    }
  }

  /** What one call through the HTTP helper gives back to its caller: no
      response at all (offline, DNS, timeout), an error status whose body may
      carry a `message`, or a 2xx body `{success, message, data}`. An absent
      message is "". */
  datatype Reply<T> =
    | NoResponse
    | HttpError(status: int, message: string)
    | Ok(success: bool, message: string, data: T)
  {
    /** The call resolved and the body says `success: true`. */
    predicate Succeeded() {
      Ok? && success
    }
  }

  /** The message a `catch (err)` block shows: `err.response?.data?.message || fallback`. */
  function CaughtMessage<T>(reply: Reply<T>, fallback: string): (m: string)
    requires !reply.Ok?
    ensures reply.HttpError? && reply.message != "" ==> m == reply.message
    ensures reply.NoResponse? || reply.message == "" ==> m == fallback
  {
    if reply.HttpError? then Or(reply.message, fallback) else fallback
  }

  /** A multipart body part: `formData.append(name, value)` with a string or a file. */
  datatype Part = Field(name: string, value: string) | FilePart(name: string, file: File)

  /** A file chosen in an `<input type="file">`: its name and its size in bytes. */
  datatype File = File(name: string, size: nat)

  /** Some part of `parts` was appended under `name`. */
  predicate HasPart(parts: seq<Part>, name: string) {
    parts != [] && (parts[0].name == name || HasPart(parts[1..], name))
  }

  /** A body joined from two pieces holds a part under a name exactly when
      one of the pieces does. */
  lemma {:induction false} HasPartConcat(a: seq<Part>, b: seq<Part>, name: string)
    ensures HasPart(a + b, name) <==> HasPart(a, name) || HasPart(b, name)
  {
    if a != [] {
      assert (a + b)[0] == a[0] && (a + b)[1..] == a[1..] + b;
      HasPartConcat(a[1..], b, name);
    } else {
      assert a + b == b;
    }
  }

  /** A body of one or two parts holds a name exactly when one of them has it. */
  lemma HasPartOfFew(p: Part, q: Part, name: string)
    ensures HasPart([p], name) <==> p.name == name
    ensures HasPart([p, q], name) <==> p.name == name || q.name == name
  {
    assert [p][1..] == [];
    assert [p, q][1..] == [q];
    assert [q][1..] == [];
  }
}
