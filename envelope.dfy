/** The request envelope: a TEMPLATE string whose six slots `str.format`
    fills with the username, the password, the request type's wire name, the
    updated time, the operation's data fragment and the client software label
    (cli/__init__.py:54-65, cli/client.py:49-60). Nothing is escaped.

    Render is that filling. Parse reads an envelope back by its tags, and the
    two lemmas at the end show that every field comes back out of the slot it
    was put in, in template order, whenever the values cannot be mistaken for
    the tags around them. */
module Envelope {
  import opened Values
  import opened Scan

  /** The literal text of a template: before the first slot, between
      consecutive slots, and after the last. */
  datatype Template = Template(
    head: string,
    afterUsername: string,
    afterPassword: string,
    afterRequestType: string,
    afterUpdatedTime: string,
    afterData: string,
    tail: string)

  /** The text filled into each slot. */
  datatype Fields = Fields(
    username: string,
    password: string,
    requestType: string,
    updatedTime: string,
    data: string,
    clientSoftware: string)

  /** `TEMPLATE.format(...)`: literals and slot values in template order. */
  function Render(t: Template, f: Fields): string {
    t.head + (f.username + (t.afterUsername + (f.password + (t.afterPassword + (f.requestType + (t.afterRequestType
      + (f.updatedTime + (t.afterUpdatedTime + (f.data + (t.afterData + (f.clientSoftware + t.tail)))))))))))
  }

  predicate OpensTag(lit: string) {
    |lit| > 0 && lit[0] == '<'
  }

  predicate ClosesTag(lit: string) {
    |lit| > 0 && lit[|lit| - 1] == '>'
  }

  /** A template whose slots are all closed off by tags: each of the first
      four slots is followed by text that starts a tag, and the client
      software slot follows text that ends one. */
  predicate Delimited(t: Template) {
    OpensTag(t.afterUsername) && OpensTag(t.afterPassword) && OpensTag(t.afterRequestType) &&
    OpensTag(t.afterUpdatedTime) && ClosesTag(t.afterData)
  }

  /** Values that cannot be taken for the tags around them. The data slot
      may hold anything, markup included. */
  predicate Readable(f: Fields) {
    '<' !in f.username && '<' !in f.password && '<' !in f.requestType && '<' !in f.updatedTime &&
    '>' !in f.clientSoftware
  }

  /** The text of `s` up to its first '<', and what follows the literal
      `lit` found there. */
  function Slot(s: string, lit: string): Option<(string, string)> {
    var n := Until(s, '<');
    if StartsWith(s[n..], lit) then Some((s[..n], s[n + |lit|..])) else None
  }

  /** The data and the client software, read from the end of what follows
      the updated time: the label runs back to the last '>'. */
  function Back(rest: string, afterData: string, tail: string): Option<(string, string)> {
    if !EndsWith(rest, tail) then None
    else
      var body := rest[..|rest| - |tail|];
      var n := Trailing(body, '>');
      var front := body[..|body| - n];
      if !EndsWith(front, afterData) then None
      else Some((front[..|front| - |afterData|], body[|body| - n..]))
  }

  /** The fields of an envelope, read by its tags. */
  function Parse(t: Template, s: string): Option<Fields> {
    var r :- Skip(s, t.head);
    var user :- Slot(r, t.afterUsername);
    var password :- Slot(user.1, t.afterPassword);
    var requestType :- Slot(password.1, t.afterRequestType);
    var updated :- Slot(requestType.1, t.afterUpdatedTime);
    var back :- Back(updated.1, t.afterData, t.tail);
    Some(Fields(user.0, password.0, requestType.0, updated.0, back.0, back.1))
  }

  lemma SlotLiteral(x: string, lit: string, rest: string)
    requires '<' !in x && OpensTag(lit)
    ensures Slot(x + (lit + rest), lit) == Some((x, rest))
  {
    var s := x + (lit + rest);
    UntilAt(x, lit + rest, '<');
    assert s[..|x|] == x && s[|x|..] == lit + rest;
    SkipLiteral(lit, rest);
    assert s[|x| + |lit|..] == rest;
  }

  lemma SlotInverse(s: string, lit: string)
    requires Slot(s, lit).Some?
    ensures '<' !in Slot(s, lit).value.0
    ensures s == Slot(s, lit).value.0 + (lit + Slot(s, lit).value.1)
  {
    var n := Until(s, '<');
    assert s == s[..n] + s[n..];
    assert Skip(s[n..], lit).Some?;
  }

  lemma BackLiteral(data: string, afterData: string, software: string, tail: string)
    requires ClosesTag(afterData) && '>' !in software
    ensures Back(data + (afterData + (software + tail)), afterData, tail) == Some((data, software))
  {
    var rest := data + (afterData + (software + tail));
    var body := rest[..|rest| - |tail|];
    assert EndsWith(rest, tail);
    assert body == (data + afterData) + software;
    TrailingAt(data + afterData, software, '>');
    assert body[..|body| - |software|] == data + afterData;
    assert body[|body| - |software|..] == software;
  }

  lemma BackInverse(rest: string, afterData: string, tail: string)
    requires Back(rest, afterData, tail).Some?
    ensures '>' !in Back(rest, afterData, tail).value.1
    ensures rest == Back(rest, afterData, tail).value.0 + (afterData + (Back(rest, afterData, tail).value.1 + tail))
  {
    var body := rest[..|rest| - |tail|];
    var n := Trailing(body, '>');
    var front := body[..|body| - n];
    var software := body[|body| - n..];
    var data := front[..|front| - |afterData|];
    assert Back(rest, afterData, tail) == Some((data, software));
    assert rest == body + tail by {
      SplitAt(rest, |rest| - |tail|);
    }
    assert body == front + software by {
      SplitAt(body, |body| - n);
    }
    assert front == data + afterData by {
      SplitAt(front, |front| - |afterData|);
    }
    Regroup(data, afterData, software, tail);
  }

  lemma SplitAt(s: string, i: nat)
    requires i <= |s|
    ensures s == s[..i] + s[i..]
  {
  }

  /** Every field of a rendered envelope is read back from its own slot. */
  lemma {:induction false} ParseRender(t: Template, f: Fields)
    requires Delimited(t) && Readable(f)
    ensures Parse(t, Render(t, f)) == Some(f)
  {
    var tailPart := f.data + (t.afterData + (f.clientSoftware + t.tail));
    var updatedPart := f.updatedTime + (t.afterUpdatedTime + tailPart);
    var typePart := f.requestType + (t.afterRequestType + updatedPart);
    var passwordPart := f.password + (t.afterPassword + typePart);
    var userPart := f.username + (t.afterUsername + passwordPart);
    assert Render(t, f) == t.head + userPart;
    SkipLiteral(t.head, userPart);
    SlotLiteral(f.username, t.afterUsername, passwordPart);
    SlotLiteral(f.password, t.afterPassword, typePart);
    SlotLiteral(f.requestType, t.afterRequestType, updatedPart);
    SlotLiteral(f.updatedTime, t.afterUpdatedTime, tailPart);
    BackLiteral(f.data, t.afterData, f.clientSoftware, t.tail);
  }

  /** Whatever Parse accepts is exactly the rendering of the fields it reads,
      and those fields are readable: rendering is one-to-one on readable
      fields. */
  lemma {:induction false} RenderParse(t: Template, s: string)
    requires Parse(t, s).Some?
    ensures Readable(Parse(t, s).value) && Render(t, Parse(t, s).value) == s
  {
    var r := Skip(s, t.head).value;
    var user := Slot(r, t.afterUsername).value;
    SlotInverse(r, t.afterUsername);
    var password := Slot(user.1, t.afterPassword).value;
    SlotInverse(user.1, t.afterPassword);
    var requestType := Slot(password.1, t.afterRequestType).value;
    SlotInverse(password.1, t.afterRequestType);
    var updated := Slot(requestType.1, t.afterUpdatedTime).value;
    SlotInverse(requestType.1, t.afterUpdatedTime);
    BackInverse(updated.1, t.afterData, t.tail);
  }
}
