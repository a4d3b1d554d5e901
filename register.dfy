/** The registration form of src/components/Register.jsx: the password check, the multipart
    body with its optional picture, and the message built from an error response. */
module Register {
  import opened Common

  /** `arr.join(sep)`. */
  function Join(xs: seq<string>, sep: string): string
    decreases |xs|
  {
    if xs == [] then ""
    else if |xs| == 1 then xs[0]
    else Join(xs[..|xs| - 1], sep) + sep + xs[|xs| - 1]
  }

  /** No pieces join to the empty text; otherwise the join starts with the first piece and
      ends with the last. */
  lemma {:induction false} JoinEnds(xs: seq<string>, sep: string)
    ensures xs == [] ==> Join(xs, sep) == ""
    ensures xs != [] ==> xs[0] <= Join(xs, sep)
    ensures xs != [] ==> |xs[|xs| - 1]| <= |Join(xs, sep)|
    ensures xs != [] ==> Join(xs, sep)[|Join(xs, sep)| - |xs[|xs| - 1]|..] == xs[|xs| - 1]
    decreases |xs|
  {
    if |xs| > 1 {
      var init := xs[..|xs| - 1];
      JoinEnds(init, sep);
      assert init[0] == xs[0];
      var j := Join(init, sep) + sep;
      assert Join(xs, sep) == j + xs[|xs| - 1];
      assert xs[0] <= j;
    }
  }

  /** The joined text grows piece by piece: the join of the first `k` pieces, a separator and
      piece `k` start the join of them all. */
  lemma {:induction false} JoinPrefix(xs: seq<string>, sep: string, k: nat)
    requires 0 < k < |xs|
    ensures Join(xs[..k], sep) + sep + xs[k] <= Join(xs, sep)
    decreases |xs|
  {
    var n := |xs| - 1;
    var init := xs[..n];
    assert Join(xs, sep) == Join(init, sep) + sep + xs[n];
    if k == n {
      assert init == xs[..k];
    } else {
      JoinPrefix(init, sep, k);
      assert init[..k] == xs[..k];
      assert init[k] == xs[k];
    }
  }

  /** A field's value in an error body: an array of messages, or one value in its string form. */
  datatype ErrorValue = Messages(items: seq<string>) | Message(text: string)

  /** The parsed error body: an object's entries in order (an array body gives its indices as
      keys), or anything that is not an object (`null`, a number, a string). */
  datatype ErrorBody = Fields(entries: seq<(string, ErrorValue)>) | NotAnObject

  /** One entry: `${field}: ${Array.isArray(messages) ? messages.join(', ') : messages}`. */
  function FormatEntry(field: string, value: ErrorValue): (s: string)
    ensures |s| >= |field| + 2 && s[..|field| + 2] == field + ": "
    ensures value.Message? ==> s == field + ": " + value.text
    ensures value.Messages? ==> s[|field| + 2..] == Join(value.items, ", ")
  {
    var text := match value
      case Messages(items) => Join(items, ", ")
      case Message(t) => t;
    assert (field + ": " + text)[..|field| + 2] == field + ": ";
    field + ": " + text
  }

  function FormatEntries(entries: seq<(string, ErrorValue)>): (r: seq<string>)
    ensures |r| == |entries|
    ensures forall k :: 0 <= k < |r| ==> r[k] == FormatEntry(entries[k].0, entries[k].1)
  {
    seq(|entries|, k requires 0 <= k < |entries| => FormatEntry(entries[k].0, entries[k].1))
  }

  /** The message shown for an error response. */
  function ErrorMessage(body: ErrorBody): (m: string)
    ensures body.NotAnObject? ==> m == "Registration failed"
    ensures body.Fields? && |body.entries| == 1 ==> m == FormatEntry(body.entries[0].0, body.entries[0].1)
    ensures body.Fields? && body.entries != [] ==> FormatEntry(body.entries[0].0, body.entries[0].1) <= m
  {
    match body
    case NotAnObject => "Registration failed"
    case Fields(entries) =>
      JoinEnds(FormatEntries(entries), " | ");
      Join(FormatEntries(entries), " | ")
  }

  /** A body that is not an object gives the fixed message; an object gives its first entry
      formatted, and then each further entry formatted after the message of the entries
      before it and " | ". */
  lemma ErrorMessageLayout(entries: seq<(string, ErrorValue)>, k: nat)
    requires k < |entries|
    ensures ErrorMessage(NotAnObject) == "Registration failed"
    ensures k == 0 ==> FormatEntry(entries[0].0, entries[0].1) <= ErrorMessage(Fields(entries))
    ensures 0 < k ==> ErrorMessage(Fields(entries[..k])) + " | " + FormatEntry(entries[k].0, entries[k].1)
                        <= ErrorMessage(Fields(entries))
  {
    var pieces := FormatEntries(entries);
    if k > 0 {
      JoinPrefix(pieces, " | ", k);
      assert FormatEntries(entries[..k]) == pieces[..k];
    }
  }

  /** The message is exactly the entries formatted and joined with " | ": one more entry adds
      the separator and that entry's text at the end, and nothing else. */
  lemma ErrorMessageStep(entries: seq<(string, ErrorValue)>, k: nat)
    requires 0 < k < |entries|
    ensures ErrorMessage(Fields(entries[..k + 1]))
            == ErrorMessage(Fields(entries[..k])) + " | " + FormatEntry(entries[k].0, entries[k].1)
  {
    var pieces := FormatEntries(entries[..k + 1]);
    assert pieces[..|pieces| - 1] == FormatEntries(entries[..k]);
    assert entries[..k + 1][k] == entries[k];
  }

  /** A single field with one message reads "field: message". */
  lemma SingleFieldMessage(field: string, message: string)
    ensures ErrorMessage(Fields([(field, Messages([message]))])) == field + ": " + message
  {
    var pieces := FormatEntries([(field, Messages([message]))]);
    assert pieces == [field + ": " + message];
  }

  /** An empty object body gives the empty message, so no error is displayed. */
  lemma EmptyObjectShowsNothing()
    ensures ErrorMessage(Fields([])) == ""
  {
  }

  /** One part of the multipart body. */
  datatype Part = Text(name: string, value: string) | Picture(file: string)

  /** The multipart body: username, email, password and password2, then `profile_picture`
      only when a file was chosen. */
  function RegistrationForm(username: string, email: string, password: string, password2: string,
                            picture: Option<string>): (parts: seq<Part>)
    ensures |parts| == (if picture.Some? then 5 else 4)
    ensures parts[..4] == [Text("username", username), Text("email", email),
                           Text("password", password), Text("password2", password2)]
    ensures picture.Some? ==> parts[4] == Picture(picture.value)
    ensures (exists k :: 0 <= k < |parts| && parts[k].Picture?) <==> picture.Some?
  {
    var texts := [Text("username", username), Text("email", email),
                  Text("password", password), Text("password2", password2)];
    var parts := if picture.Some? then texts + [Picture(picture.value)] else texts;
    assert picture.Some? ==> parts[4].Picture?;
    parts
  }

  /** The settled `POST /api/register/`: a 2xx response, an error response with its parsed
      body, an error response whose body is not JSON, or a network failure. */
  datatype RegisterReply = Created | Refused(body: ErrorBody) | RefusedUnreadable | NetworkFailure

  datatype FieldName = Username | Email | Password | Password2

  class RegisterForm {
    var username: string
    var email: string
    var password: string
    var password2: string
    var error: string
    var picture: Option<string>

    constructor ()
      ensures username == "" && email == "" && password == "" && password2 == ""
      ensures error == "" && picture.None?
    {
      username, email, password, password2 := "", "", "", "";
      error := "";
      picture := None;
    }

    /** `handleChange`: one field of the form takes the typed value. */
    method Change(name: FieldName, value: string)
      modifies this
      ensures username == (if name == Username then value else old(username))
      ensures email == (if name == Email then value else old(email))
      ensures password == (if name == Password then value else old(password))
      ensures password2 == (if name == Password2 then value else old(password2))
      ensures error == old(error) && picture == old(picture)
    {
      match name {
        case Username => username := value;
        case Email => email := value;
        case Password => password := value;
        case Password2 => password2 := value;
      }
    }

    /** Choosing a file. */
    method ChoosePicture(file: Option<string>)
      modifies this
      ensures picture == file
      ensures username == old(username) && email == old(email) && password == old(password)
      ensures password2 == old(password2) && error == old(error)
    {
      picture := file;
    }

    /** `handleSubmit`: `sent` is the body posted (`None` when nothing is sent). Mismatched
        passwords stop before any request; a 2xx navigates to `/login` without touching the
        error; an error response shows its message; an unreadable body or a network failure
        shows "Network error". */
    method Submit(reply: RegisterReply) returns (sent: Option<seq<Part>>, nav: Option<Navigation>)
      modifies this
      ensures password != password2 ==> sent.None? && nav.None? && error == "Passwords do not match"
      ensures password == password2 ==> sent == Some(RegistrationForm(username, email, password, password2, picture))
      ensures nav.Some? <==> password == password2 && reply.Created?
      ensures nav.Some? ==> nav.value == Navigate("/login", false) && error == old(error)
      ensures password == password2 && reply.Refused? ==> error == ErrorMessage(reply.body)
      ensures password == password2 && (reply.RefusedUnreadable? || reply.NetworkFailure?) ==> error == "Network error"
      ensures username == old(username) && email == old(email) && password == old(password)
      ensures password2 == old(password2) && picture == old(picture)
    {
      if password != password2 {
        error := "Passwords do not match";
        return None, None;
      }
      sent := Some(RegistrationForm(username, email, password, password2, picture));
      nav := None;
      match reply {
        case Created =>
          nav := Some(Navigate("/login", false));
        case Refused(body) =>
          var message := "Registration failed";
          if body.Fields? {
            message := Join(FormatEntries(body.entries), " | ");
          }
          error := message;
        case RefusedUnreadable =>
          error := "Network error";
        case NetworkFailure =>
          error := "Network error";
      }
    }
  }
}
