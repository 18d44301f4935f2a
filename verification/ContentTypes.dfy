/** Which responses declare JSON: `_carries_json` and the header texts it says yes to. */
module ContentTypes {
  import opened Texts

  /** Bytes, one character each. */
  type Bytes = string

  datatype Header = Header(name: Bytes, value: Bytes)

  /** `_carries_json`: the first content type decides, and none at all counts as JSON. */
  predicate CarriesJson(headers: seq<Header>) {
    if headers == [] then true
    else if Lower(headers[0].name) != "content-type" then CarriesJson(headers[1..])
    else
      var media := Lower(StripBytes(Before(headers[0].value, ';')));
      EndsWith(media, "/json") || EndsWith(media, "+json")
  }

  // ----- What the headers say -----

  predicate NamesType(h: Header) { Lower(h.name) == "content-type" }

  /** The first content type among the headers is the i-th header. */
  predicate FirstType(headers: seq<Header>, i: int) {
    0 <= i < |headers| && NamesType(headers[i]) && forall j :: 0 <= j < i ==> !NamesType(headers[j])
  }

  predicate NoType(headers: seq<Header>) {
    forall j :: 0 <= j < |headers| ==> !NamesType(headers[j])
  }

  /** A media type: no parameter in it, no blank around it. */
  predicate IsMedia(media: Bytes) {
    ';' !in media && Bare(media, IsByteSpace)
  }

  predicate IsParameters(rest: Bytes) { rest == "" || rest[0] == ';' }

  /** The header's text is the media type, with blanks around it and parameters behind it, if any. */
  ghost predicate Declares(value: Bytes, media: Bytes) {
    exists left, right, rest :: Spelled(value, left, media, right, rest)
  }

  predicate Spelled(value: Bytes, left: Bytes, media: Bytes, right: Bytes, rest: Bytes) {
    && value == left + media + right + rest
    && AllBlank(left, IsByteSpace) && IsMedia(media) && AllBlank(right, IsByteSpace) && IsParameters(rest)
  }

  predicate JsonMedia(media: Bytes) {
    |media| >= 5 && Lower(media[|media| - 5..]) in {"/json", "+json"}
  }

  /** No content type is declared, or the first one is of a JSON media type. */
  ghost predicate DeclaresJson(headers: seq<Header>) {
    || NoType(headers)
    || exists i, media :: FirstType(headers, i) && Declares(headers[i].value, media) && JsonMedia(media)
  }

  // ----- The code reads what they say -----

  /** However a media type is spelled, it is what the code reads. */
  lemma {:induction false} ReadsMedia(value: Bytes, left: Bytes, media: Bytes, right: Bytes, rest: Bytes)
    requires Spelled(value, left, media, right, rest)
    ensures StripBytes(Before(value, ';')) == media
  {
    ReadToMark(left + media + right, rest, ';');
    Stripped(left, media, right, IsByteSpace);
  }

  /** Every header's text declares the media type the code reads. */
  lemma {:induction false} MediaIsDeclared(value: Bytes)
    ensures Declares(value, StripBytes(Before(value, ';')))
  {
    var k := MarkWhere(value, ';');
    var front := value[..k];
    var i, j := StripWhere(front, IsByteSpace);
    assert value == front[..i] + front[i..j] + front[j..] + value[k..];
    assert Spelled(value, front[..i], front[i..j], front[j..], value[k..]);
  }

  lemma JsonEnding(media: Bytes)
    ensures JsonMedia(media) <==> EndsWith(Lower(media), "/json") || EndsWith(Lower(media), "+json")
  {
    if |media| >= 5 { assert Lower(media)[|media| - 5..] == Lower(media[|media| - 5..]); }
  }

  lemma {:induction false} TypedExactly(headers: seq<Header>, i: nat)
    requires FirstType(headers, i)
    ensures CarriesJson(headers) <==> JsonMedia(StripBytes(Before(headers[i].value, ';')))
  {
    if i == 0 {
      JsonEnding(StripBytes(Before(headers[0].value, ';')));
    } else {
      assert !NamesType(headers[0]);
      forall j | 0 <= j < i - 1 ensures !NamesType(headers[1..][j]) { assert headers[1..][j] == headers[j + 1]; }
      TypedExactly(headers[1..], i - 1);
    }
  }

  lemma {:induction false} UntypedIsJson(headers: seq<Header>)
    requires NoType(headers)
    ensures CarriesJson(headers)
  {
    if headers != [] {
      assert !NamesType(headers[0]);
      forall j | 0 <= j < |headers| - 1 ensures !NamesType(headers[1..][j]) {
        assert headers[1..][j] == headers[j + 1];
      }
      UntypedIsJson(headers[1..]);
    }
  }

  lemma {:induction false} TypeIsFirst(headers: seq<Header>) returns (i: nat)
    requires !NoType(headers)
    ensures FirstType(headers, i)
  {
    i := 0;
    while i < |headers| && !NamesType(headers[i])
      invariant i <= |headers| && forall j :: 0 <= j < i ==> !NamesType(headers[j])
    {
      i := i + 1;
    }
  }

  /** The code takes a response for JSON exactly when its headers declare JSON, or no content type. */
  lemma {:induction false} CarriesJsonExactly(headers: seq<Header>)
    ensures CarriesJson(headers) <==> DeclaresJson(headers)
  {
    if NoType(headers) {
      UntypedIsJson(headers);
    } else {
      var i := TypeIsFirst(headers);
      TypedExactly(headers, i);
      MediaIsDeclared(headers[i].value);
      forall k, media | FirstType(headers, k) && Declares(headers[k].value, media)
        ensures k == i && media == StripBytes(Before(headers[i].value, ';'))
      {
        var left, right, rest :| Spelled(headers[k].value, left, media, right, rest);
        ReadsMedia(headers[k].value, left, media, right, rest);
      }
    }
  }

  // ----- The usual types -----

  /** The content type, under its usual name, with or without parameters. */
  predicate TypeAt(headers: seq<Header>, i: int, media: Bytes, parameters: Bytes) {
    FirstType(headers, i) && headers[i].value == media + parameters && IsParameters(parameters)
  }

  lemma PlainlyDeclared(headers: seq<Header>, i: int, media: Bytes, parameters: Bytes)
    requires TypeAt(headers, i, media, parameters) && IsMedia(media)
    ensures DeclaresJson(headers) <==> JsonMedia(media)
  {
    var value := headers[i].value;
    assert value == "" + media + "" + parameters;
    assert Spelled(value, "", media, "", parameters);
    if DeclaresJson(headers) {
      var k, other :| FirstType(headers, k) && Declares(headers[k].value, other) && JsonMedia(other);
      var left, right, rest :| Spelled(value, left, other, right, rest);
      ReadsMedia(value, left, other, right, rest);
      ReadsMedia(value, "", media, "", parameters);
    }
  }

  lemma JsonTypes()
    ensures IsMedia("application/json") && JsonMedia("application/json")
    ensures IsMedia("application/problem+json") && JsonMedia("application/problem+json")
  {
    assert "application/json"[11..] == "/json" && Lower("/json") == "/json";
    assert "application/problem+json"[19..] == "+json" && Lower("+json") == "+json";
  }

  lemma StreamTypes()
    ensures IsMedia("application/octet-stream") && !JsonMedia("application/octet-stream")
    ensures IsMedia("text/event-stream") && !JsonMedia("text/event-stream")
  {
    assert Lower("application/octet-stream"[19..])[0] == 't';
    assert Lower("text/event-stream"[12..])[0] == 't';
  }

  /** The name is read in any case. */
  lemma TypeNames(value: Bytes)
    ensures NamesType(Header("Content-Type", value)) && NamesType(Header("content-type", value))
    ensures !NamesType(Header("content-length", value))
  {
    assert Lower("Content-Type") == "content-type" && Lower("content-type") == "content-type";
    assert Lower("content-length")[8] == 'l';
  }
}
