/** Chat messages and `normalize_message`, which turns whatever sits in the
    conversation (message objects, dictionaries, strings, other objects) into
    a role-tagged message. */
module Messages {
  import opened Values
  import opened Text

  /** The three message classes the agent builds: human, AI and system. */
  datatype Role = Human | Ai | System

  datatype Message = Message(role: Role, content: string)

  /** An element of the conversation before normalisation: a message object,
      a dictionary, a string, or any other object (known by its `str()`). */
  datatype RawMessage =
    | Canonical(message: Message)
    | Dict(fields: seq<(string, Json)>)
    | Text(s: string)
    | Other(shown: string)

  /** The validation error a message class raises for content that is not a
      string. */
  const ContentNotText: string := "message content must be a string"

  /** `(m.get("role") or m.get("type") or "").lower()`; a value that is not a
      string has no `lower`. */
  function RoleText(fields: seq<(string, Json)>): (r: Outcome<string>)
    ensures Truthy(Get(fields, "role")) && Get(fields, "role").JStr? ==> r == Returned(Lower(Get(fields, "role").s))
    ensures !Truthy(Get(fields, "role")) && Truthy(Get(fields, "type")) && Get(fields, "type").JStr? ==>
      r == Returned(Lower(Get(fields, "type").s))
    ensures !Truthy(Get(fields, "role")) && !Truthy(Get(fields, "type")) ==> r == Returned("")
    ensures r.Raised? <==> (
      || (Truthy(Get(fields, "role")) && !Get(fields, "role").JStr?)
      || (!Truthy(Get(fields, "role")) && Truthy(Get(fields, "type")) && !Get(fields, "type").JStr?))
  {
    var v :=
      if Truthy(Get(fields, "role")) then Get(fields, "role")
      else if Truthy(Get(fields, "type")) then Get(fields, "type")
      else JStr("");
    if v.JStr? then Returned(Lower(v.s)) else Raised(NoAttribute(v, "lower"))
  }

  /** `m.get("content") if "content" in m else m.get("text", "")`. */
  function ContentOf(fields: seq<(string, Json)>): (r: Json)
    ensures HasKey(fields, "content") ==> exists k :: 0 <= k < |fields| && fields[k] == ("content", r)
    ensures !HasKey(fields, "content") && HasKey(fields, "text") ==> exists k :: 0 <= k < |fields| && fields[k] == ("text", r)
    ensures !HasKey(fields, "content") && !HasKey(fields, "text") ==> r == JStr("")
  {
    if HasKey(fields, "content") then Get(fields, "content") else GetOr(fields, "text", JStr(""))
  }

  /** Building a message of the given role from a content value. */
  function Make(role: Role, content: Json): (r: Outcome<Message>)
    ensures r.Returned? <==> content.JStr?
    ensures r.Returned? ==> r.value == Message(role, content.s)
  {
    if content.JStr? then Returned(Message(role, content.s)) else Raised(ContentNotText)
  }

  /** `normalize_message(m)`; `dumps` stands for `json.dumps`. */
  function Normalize(m: RawMessage, dumps: Json -> string): (r: Outcome<Message>)
    ensures m.Canonical? ==> r == Returned(m.message)
    ensures m.Text? ==> r == Returned(Message(Human, m.s))
    ensures m.Other? ==> r == Returned(Message(System, m.shown))
    ensures m.Dict? && RoleText(m.fields).Returned? ==>
      var role := RoleText(m.fields).value;
      var content := ContentOf(m.fields);
      && (role in {"user", "human"} ==> r == Make(Human, content))
      && (role in {"assistant", "ai"} ==> r == Make(Ai, content))
      && (role !in {"user", "human", "assistant", "ai"} ==>
            r == (if Truthy(content) then Make(System, content) else Returned(Message(System, dumps(JObj(m.fields))))))
    ensures m.Dict? && RoleText(m.fields).Raised? ==> r == Raised(RoleText(m.fields).exception)
  {
    match m
    case Canonical(msg) => Returned(msg)
    case Dict(fields) =>
      (match RoleText(fields)
       case Raised(e) => Raised(e)
       case Returned(role) =>
         var content := ContentOf(fields);
         if role == "user" || role == "human" then Make(Human, content)
         else if role == "assistant" || role == "ai" then Make(Ai, content)
         else if Truthy(content) then Make(System, content)
         else Returned(Message(System, dumps(JObj(fields)))))
    case Text(s) => Returned(Message(Human, s))
    case Other(shown) => Returned(Message(System, shown))
  }

  /** The role names under the `role` key. */
  function RoleName(role: Role): string {
    match role
    case Human => "user"
    case Ai => "assistant"
    case System => "system"
  }

  /** The role names under the `type` key. */
  function TypeKeyName(role: Role): string {
    match role
    case Human => "human"
    case Ai => "ai"
    case System => "system"
  }

  /** The dictionary form of a message, keyed by `role` or by `type`. */
  function AsDict(msg: Message, byType: bool): seq<(string, Json)> {
    [(if byType then "type" else "role", JStr(if byType then TypeKeyName(msg.role) else RoleName(msg.role))),
     ("content", JStr(msg.content))]
  }

  /** The role names are already in lower case. */
  lemma RoleNamesLowered(role: Role)
    ensures Lower(RoleName(role)) == RoleName(role)
    ensures Lower(TypeKeyName(role)) == TypeKeyName(role)
  {
    var a, b := RoleName(role), TypeKeyName(role);
    assert forall k :: 0 <= k < |a| ==> LowerChar(a[k]) == a[k];
    assert forall k :: 0 <= k < |b| ==> LowerChar(b[k]) == b[k];
  }

  /** Round trip: a message written as a dictionary, under either key, is
      normalised back to itself, except that a system message with empty
      content becomes the dictionary's JSON text. */
  lemma DictRoundTrip(msg: Message, byType: bool, dumps: Json -> string)
    ensures msg.role != System || msg.content != "" ==>
      Normalize(Dict(AsDict(msg, byType)), dumps) == Returned(msg)
    ensures msg.role == System && msg.content == "" ==>
      Normalize(Dict(AsDict(msg, byType)), dumps) == Returned(Message(System, dumps(JObj(AsDict(msg, byType)))))
  {
    var fields := AsDict(msg, byType);
    var name := if byType then TypeKeyName(msg.role) else RoleName(msg.role);
    RoleNamesLowered(msg.role);
    assert RoleText(fields) == Returned(name) by {
      assert fields[0] == (if byType then "type" else "role", JStr(name));
      if !byType { assert Get(fields, "role") == JStr(name); }
    }
    assert HasKey(fields, "content") && Get(fields, "content") == JStr(msg.content) by {
      assert fields[1] == ("content", JStr(msg.content));
      assert fields[1..][0] == fields[1];
    }
    if byType {
      assert Get(fields, "role") == JNull by { assert fields[1..][1..] == []; }
    }
  }

  /** The `content` key wins over `text` whenever it is present, even when its
      value is not a string (`None`, say), which then fails to build. */
  lemma ContentKeyWins(role: string, v: Json, t: string, dumps: Json -> string)
    requires Lower(role) in {"user", "human"}
    ensures Normalize(Dict([("role", JStr(role)), ("content", v), ("text", JStr(t))]), dumps) == Make(Human, v)
    ensures v == JNull ==>
      Normalize(Dict([("role", JStr(role)), ("content", v), ("text", JStr(t))]), dumps) == Raised(ContentNotText)
  {
    var fields := [("role", JStr(role)), ("content", v), ("text", JStr(t))];
    assert HasKey(fields, "content") && Get(fields, "content") == v by { assert fields[1..][0] == fields[1]; }
  }

  /** Without a `content` key the `text` value is the content, and without
      either the content is empty. */
  lemma TextFallback(role: string, t: string, dumps: Json -> string)
    requires Lower(role) in {"user", "human"}
    ensures Normalize(Dict([("role", JStr(role)), ("text", JStr(t))]), dumps) == Returned(Message(Human, t))
    ensures Normalize(Dict([("role", JStr(role))]), dumps) == Returned(Message(Human, ""))
  {
    var withText := [("role", JStr(role)), ("text", JStr(t))];
    assert !HasKey(withText, "content") && GetOr(withText, "text", JStr("")) == JStr(t) by {
      assert withText[1..][0] == withText[1];
    }
    var bare := [("role", JStr(role))];
    assert !HasKey(bare, "content") && GetOr(bare, "text", JStr("")) == JStr("") by {
      assert bare[1..] == [];
    }
  }

  /** An empty dictionary has no role and no content: it becomes a system
      message holding its JSON text. */
  lemma EmptyDictIsDump(dumps: Json -> string)
    ensures Normalize(Dict([]), dumps) == Returned(Message(System, dumps(JObj([]))))
  {
  }

  /** The role is read case-insensitively: `"USER"`, `"Human"`, ... give a
      human message. */
  lemma RoleIgnoresCase(role: string, content: string, dumps: Json -> string)
    requires Lower(role) in {"user", "human"}
    ensures Normalize(Dict([("role", JStr(role)), ("content", JStr(content))]), dumps) == Returned(Message(Human, content))
  {
    var fields := [("role", JStr(role)), ("content", JStr(content))];
    assert Get(fields, "content") == JStr(content) by { assert fields[1..][0] == fields[1]; }
    assert HasKey(fields, "content") by { assert fields[1].0 == "content"; }
  }
}
