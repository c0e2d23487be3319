// Building the payload of a browser notification within the provider's size
// limit (backend/app/integrations/web_push.py).
module WebPushPayload {
  import opened Prelude
  import opened Utf8
  import opened JsonStrings

  const MAX_PAYLOAD_BYTES: nat := 3000
  const MAX_TITLE_BYTES: nat := 240
  const MAX_BODY_BYTES: nat := 2600
  const DEFAULT_URL := "/"

  // The canonical text of an id: 36 characters that need no escaping.
  type Uuid = s: string | UuidText(s) witness "00000000-0000-0000-0000-000000000000"

  predicate UuidText(s: string) {
    |s| == 36 && forall i :: 0 <= i < |s| ==> '0' <= s[i] <= '9' || 'a' <= s[i] <= 'f' || s[i] == '-'
  }

  // Reading a stored target id may fail, and brings it to canonical form.
  type UuidReader = string -> Option<Uuid>

  datatype Delivery = Delivery(
    id: Uuid, subject: Option<string>, body: string,
    targetType: Option<string>, targetId: Option<string>)

  // ----- the payload -----

  function Url(d: Delivery, read: UuidReader): string {
    if d.targetId.None? || read(d.targetId.value).None? then DEFAULT_URL
    else if d.targetType == Some("deal") then "/deals?deal=" + read(d.targetId.value).value
    else if d.targetType == Some("task") then "/tasks?task=" + read(d.targetId.value).value
    else DEFAULT_URL
  }

  const TITLE_KEY := "{\"title\":"
  const BODY_KEY := ",\"body\":"
  const URL_KEY := ",\"url\":"
  const TAG_KEY := ",\"tag\":"

  function Field(key: string, s: string): string {
    key + Quote(s)
  }

  function Render(title: string, body: string, url: string, tag: string): string {
    Field(TITLE_KEY, title) + (Field(BODY_KEY, body) + (Field(URL_KEY, url) + (Field(TAG_KEY, tag) + "}")))
  }

  function Title(d: Delivery): string {
    Truncate(if d.subject.None? || d.subject.value == "" then "Pulse CRM" else d.subject.value, MAX_TITLE_BYTES)
  }

  function Tag(d: Delivery): string {
    "notification:" + d.id
  }

  function PayloadOf(d: Delivery, read: UuidReader, body: string): string {
    Render(Title(d), body, Url(d, read), Tag(d))
  }

  // One round of the loop for a body that is too long.
  function Shortened(body: string, overflow: nat): string {
    var kept := |Encode(body)| - overflow - 8;
    Truncate(body, if kept < 0 then 0 else kept)
  }

  // The body that is sent: shortened at most once.
  function Shown(d: Delivery, read: UuidReader): string {
    var body := Truncate(d.body, MAX_BODY_BYTES);
    var size := |Encode(PayloadOf(d, read, body))|;
    if size <= MAX_PAYLOAD_BYTES then body else Shortened(body, size - MAX_PAYLOAD_BYTES)
  }

  // build_web_push_payload
  method BuildPayload(d: Delivery, read: UuidReader) returns (payload: string)
    ensures payload == PayloadOf(d, read, Shown(d, read))
    ensures |Encode(payload)| <= MAX_PAYLOAD_BYTES
  {
    hide Truncate, Shortened, Render, Encode, Url, Shown, Room;
    var title := Truncate(if d.subject.None? || d.subject.value == "" then "Pulse CRM" else d.subject.value, MAX_TITLE_BYTES);
    var first := Truncate(d.body, MAX_BODY_BYTES);
    var body, url := first, Url(d, read);
    ShownOnce(d, read);
    EmptyBodyFits(d, read);
    var tag := "notification:" + d.id;
    assert title == Title(d) && tag == Tag(d);
    hide Title, Tag;
    payload := Render(title, body, url, tag);
    while |Encode(payload)| > MAX_PAYLOAD_BYTES
      invariant payload == Render(title, body, url, tag)
      invariant if |Encode(payload)| > MAX_PAYLOAD_BYTES then body == first else body == Shown(d, read)
      decreases |Encode(payload)|
    {
      ShorteningFits(title, body, url, tag);
      body := ShortenBody(body, |Encode(payload)| - MAX_PAYLOAD_BYTES);
      payload := Render(title, body, url, tag);
    }
  }

  method ShortenBody(body: string, overflow: nat) returns (r: string)
    ensures r == Shortened(body, overflow)
  {
    var kept := |Encode(body)| - overflow - 8;
    r := Truncate(body, if kept < 0 then 0 else kept);
  }

  lemma ShownOnce(d: Delivery, read: UuidReader)
    ensures var body := Truncate(d.body, MAX_BODY_BYTES);
      var size := |Encode(PayloadOf(d, read, body))|;
      Shown(d, read) == if size <= MAX_PAYLOAD_BYTES then body else Shortened(body, size - MAX_PAYLOAD_BYTES)
  {
    hide Truncate, Encode, PayloadOf;
  }

  // ----- sizes -----

  lemma FieldSize(key: string, s: string)
    requires Ascii(key)
    ensures |Encode(Field(key, s))| == |key| + 2 + |Encode(Escape(s))|
  {
    EncodeAscii("\"");
    EncodeAscii(key);
    EncodeAppend("\"", Escape(s));
    EncodeAppend("\"" + Escape(s), "\"");
    EncodeAppend(key, Quote(s));
  }

  // 40 bytes of punctuation and keys around the four texts.
  lemma RenderSize(title: string, body: string, url: string, tag: string)
    ensures |Encode(Render(title, body, url, tag))|
         == 40 + |Encode(Escape(title))| + |Encode(Escape(body))| + |Encode(Escape(url))| + |Encode(Escape(tag))|
  {
    KeysAreAscii();
    hide Encode, Field, Escape, Ascii;
    PartsSize(TITLE_KEY, title, BODY_KEY, body, URL_KEY, url, TAG_KEY, tag);
  }

  lemma KeysAreAscii()
    ensures Ascii(TITLE_KEY) && Ascii(BODY_KEY) && Ascii(URL_KEY) && Ascii(TAG_KEY)
    ensures |TITLE_KEY| + |BODY_KEY| + |URL_KEY| + |TAG_KEY| == 31
  {
  }

  lemma PartsSize(k: string, a: string, l: string, b: string, m: string, c: string, n: string, d: string)
    requires Ascii(k) && Ascii(l) && Ascii(m) && Ascii(n)
    ensures |Encode(Field(k, a) + (Field(l, b) + (Field(m, c) + (Field(n, d) + "}"))))|
         == |k| + |l| + |m| + |n| + 9 + |Encode(Escape(a))| + |Encode(Escape(b))| + |Encode(Escape(c))| + |Encode(Escape(d))|
  {
    EncodeAscii("}");
    hide Encode, Field, Escape, Ascii;
    FieldSize(k, a);
    FieldSize(l, b);
    FieldSize(m, c);
    FieldSize(n, d);
    EncodeAppend(Field(k, a), Field(l, b) + (Field(m, c) + (Field(n, d) + "}")));
    EncodeAppend(Field(l, b), Field(m, c) + (Field(n, d) + "}"));
    EncodeAppend(Field(m, c), Field(n, d) + "}");
    EncodeAppend(Field(n, d), "}");
  }

  lemma PlainParts(d: Delivery, read: UuidReader)
    ensures Escape(Url(d, read)) == Url(d, read) && |Encode(Url(d, read))| <= 48
    ensures Escape(Tag(d)) == Tag(d) && |Encode(Tag(d))| == 49
  {
    PlainTag(d);
    hide Escape, Encode, Plain, Tag;
    if d.targetId.Some? && read(d.targetId.value).Some? {
      PlainUrl(read(d.targetId.value).value);
    }
    PlainDefault();
  }

  lemma PlainDefault()
    ensures Escape(DEFAULT_URL) == DEFAULT_URL && |Encode(DEFAULT_URL)| == 1
  {
    EscapePlain(DEFAULT_URL);
  }

  lemma PlainTag(d: Delivery)
    ensures Escape(Tag(d)) == Tag(d) && |Encode(Tag(d))| == 49
  {
    hide Escape, Encode;
    PlainId("notification:", d.id);
  }

  lemma PlainUrl(id: Uuid)
    ensures Escape("/deals?deal=" + id) == "/deals?deal=" + id && |Encode("/deals?deal=" + id)| == 48
    ensures Escape("/tasks?task=" + id) == "/tasks?task=" + id && |Encode("/tasks?task=" + id)| == 48
  {
    hide Escape, Encode;
    PlainId("/deals?deal=", id);
    PlainId("/tasks?task=", id);
  }

  lemma PlainId(before: string, id: Uuid)
    requires Plain(before)
    ensures Escape(before + id) == before + id && |Encode(before + id)| == |before| + 36
  {
    assert UuidText(id);
    EscapePlain(before + id);
  }

  // What surrounds the body leaves room for it.
  ghost predicate Room(title: string, url: string, tag: string) {
    40 + |Encode(Escape(title))| + |Encode(Escape(url))| + |Encode(Escape(tag))| < MAX_PAYLOAD_BYTES
  }

  // Even with every character of the title escaped to six there is room.
  lemma EmptyBodyFits(d: Delivery, read: UuidReader)
    ensures Room(Title(d), Url(d, read), Tag(d))
  {
    hide Title, Url, Tag, Encode, Escape;
    EscapeSize(Title(d));
    TitleSize(d);
    PlainParts(d, read);
  }

  lemma TitleSize(d: Delivery)
    ensures |Encode(Title(d))| <= MAX_TITLE_BYTES
    ensures d.subject.Some? && d.subject.value != "" ==> Title(d) <= d.subject.value
  {
    hide Encode, Truncate;
    TruncateIsLongestPrefix(if d.subject.None? || d.subject.value == "" then "Pulse CRM" else d.subject.value, MAX_TITLE_BYTES);
  }

  // Every raw byte taken from the body takes at least one byte from the payload.
  lemma PrefixShrinks(body: string, shorter: string)
    requires shorter <= body
    ensures |Encode(Escape(shorter))| + |Encode(body)| - |Encode(shorter)| <= |Encode(Escape(body))|
  {
    var rest := body[|shorter|..];
    assert body == shorter + rest;
    hide Encode, Escape;
    EscapeAppend(shorter, rest);
    EncodeAppend(shorter, rest);
    EncodeAppend(Escape(shorter), Escape(rest));
    EscapeSize(rest);
  }

  // One shortening is enough.
  lemma ShorteningFits(title: string, body: string, url: string, tag: string)
    requires Room(title, url, tag) && |Encode(Render(title, body, url, tag))| > MAX_PAYLOAD_BYTES
    ensures var shorter := Shortened(body, |Encode(Render(title, body, url, tag))| - MAX_PAYLOAD_BYTES);
      && shorter <= body
      && |Encode(Render(title, shorter, url, tag))| <= MAX_PAYLOAD_BYTES
  {
    hide Encode, Escape, Render, Shortened;
    var overflow := |Encode(Render(title, body, url, tag))| - MAX_PAYLOAD_BYTES;
    var shorter := Shortened(body, overflow);
    ShortenedSize(body, overflow);
    RenderSize(title, body, url, tag);
    RenderSize(title, shorter, url, tag);
    PrefixShrinks(body, shorter);
    if |Encode(shorter)| == 0 {
      NoBytesNoText(shorter);
    }
  }

  lemma ShortenedSize(body: string, overflow: nat)
    requires overflow > 0
    ensures var shorter := Shortened(body, overflow);
      && shorter <= body
      && (|Encode(shorter)| == 0 || |Encode(shorter)| + overflow + 8 <= |Encode(body)|)
  {
    var kept := |Encode(body)| - overflow - 8;
    hide Encode, Truncate;
    TruncateIsLongestPrefix(body, if kept < 0 then 0 else kept);
  }

  lemma NoBytesNoText(s: string)
    requires |Encode(s)| == 0
    ensures s == "" && |Encode(Escape(s))| == 0
  {
  }

  // Title and body that are shown are whole-character prefixes of the originals.
  lemma ShownIsPrefix(d: Delivery, read: UuidReader)
    ensures Shown(d, read) <= d.body && |Encode(Shown(d, read))| <= MAX_BODY_BYTES
    ensures d.subject.Some? && d.subject.value != "" ==> Title(d) <= d.subject.value
    ensures |Encode(Title(d))| <= MAX_TITLE_BYTES
    ensures |Encode(PayloadOf(d, read, Truncate(d.body, MAX_BODY_BYTES)))| <= MAX_PAYLOAD_BYTES
      ==> Shown(d, read) == Truncate(d.body, MAX_BODY_BYTES)
  {
    var body := Truncate(d.body, MAX_BODY_BYTES);
    var size := |Encode(PayloadOf(d, read, body))|;
    hide Encode, Truncate, Render;
    TruncateIsLongestPrefix(d.body, MAX_BODY_BYTES);
    TruncateIsLongestPrefix(if d.subject.None? || d.subject.value == "" then "Pulse CRM" else d.subject.value, MAX_TITLE_BYTES);
    if size > MAX_PAYLOAD_BYTES {
      var kept := |Encode(body)| - (size - MAX_PAYLOAD_BYTES) - 8;
      TruncateIsLongestPrefix(body, if kept < 0 then 0 else kept);
    }
  }

  // ----- reading the payload back -----

  // A key, then a string.
  function ReadField(key: string, s: string): Option<(string, string)> {
    if key + "\"" <= s then ReadString(s[|key| + 1..]) else None
  }

  function ReadPayload(s: string): Option<(string, string, string, string)> {
    var title := ReadField(TITLE_KEY, s);
    if title.None? then None else
    var body := ReadField(BODY_KEY, title.value.1);
    if body.None? then None else
    var url := ReadField(URL_KEY, body.value.1);
    if url.None? then None else
    var tag := ReadField(TAG_KEY, url.value.1);
    if tag.None? || tag.value.1 != "}" then None
    else Some((title.value.0, body.value.0, url.value.0, tag.value.0))
  }

  lemma ReadWritten(key: string, s: string, rest: string)
    ensures ReadField(key, Field(key, s) + rest) == Some((s, rest))
  {
    var text := Field(key, s) + rest;
    assert text == (key + "\"") + (Escape(s) + "\"" + rest);
    assert text[|key| + 1..] == Escape(s) + "\"" + rest;
    ReadQuoted(s, rest);
  }

  // Whatever the texts contain, the payload is one JSON object that reads back
  // as exactly them.
  lemma PayloadReadsBack(title: string, body: string, url: string, tag: string)
    ensures ReadPayload(Render(title, body, url, tag)) == Some((title, body, url, tag))
  {
    hide ReadField, Field;
    var afterUrl := Field(TAG_KEY, tag) + "}";
    var afterBody := Field(URL_KEY, url) + afterUrl;
    var afterTitle := Field(BODY_KEY, body) + afterBody;
    ReadWritten(TITLE_KEY, title, afterTitle);
    ReadWritten(BODY_KEY, body, afterBody);
    ReadWritten(URL_KEY, url, afterUrl);
    ReadWritten(TAG_KEY, tag, "}");
  }

  // The longest whole-character prefix that fits.
  ghost predicate LongestPrefix(r: string, s: string, maximum: nat) {
    r <= s && |Encode(r)| <= maximum && forall j :: |r| < j <= |s| ==> |Encode(s[..j])| > maximum
  }

  // Where a click leads: to the deal or task that is named by a readable id.
  ghost predicate Leads(url: string, d: Delivery, read: UuidReader) {
    if d.targetId.Some? && read(d.targetId.value).Some? && d.targetType == Some("deal") then
      url == "/deals?deal=" + read(d.targetId.value).value
    else if d.targetId.Some? && read(d.targetId.value).Some? && d.targetType == Some("task") then
      url == "/tasks?task=" + read(d.targetId.value).value
    else url == "/"
  }

  // The bytes the body may take when the first attempt is too long.
  function Allowed(d: Delivery, read: UuidReader, first: string): nat {
    var size := |Encode(PayloadOf(d, read, first))|;
    if size <= 3000 then 2600
    else if |Encode(first)| < size - 3000 + 8 then 0
    else |Encode(first)| - (size - 3000) - 8
  }

  lemma RenderText(title: string, body: string, url: string, tag: string)
    ensures Render(title, body, url, tag) ==
      "{\"title\":" + Quote(title) + ",\"body\":" + Quote(body) + ",\"url\":" + Quote(url) + ",\"tag\":" + Quote(tag) + "}"
  {
    hide Quote;
  }

  // What the browser reads: the title, or the name of the application, within
  // 240 bytes; the body within 2600 bytes, cut by eight bytes more than the
  // payload is too long; the link; and a tag made from the delivery's id.
  lemma PayloadTells(d: Delivery, read: UuidReader)
    ensures var r := ReadPayload(PayloadOf(d, read, Shown(d, read)));
      && r.Some?
      && var (title, body, url, tag) := r.value;
         && LongestPrefix(title, if d.subject.Some? && d.subject.value != "" then d.subject.value else "Pulse CRM", 240)
         && (exists first :: LongestPrefix(first, d.body, 2600) && LongestPrefix(body, first, Allowed(d, read, first)))
         && Leads(url, d, read) && tag == "notification:" + d.id
         && PayloadOf(d, read, Shown(d, read)) ==
              "{\"title\":" + Quote(title) + ",\"body\":" + Quote(body) + ",\"url\":" + Quote(url) + ",\"tag\":" + Quote(tag) + "}"
  {
    hide Encode, Truncate, Render, ReadPayload, Title, Url, Tag, Shown, Leads, LongestPrefix, Allowed, Quote;
    PayloadReadsBack(Title(d), Shown(d, read), Url(d, read), Tag(d));
    RenderText(Title(d), Shown(d, read), Url(d, read), Tag(d));
    TitleTold(d);
    BodyTold(d, read);
    LinkTold(d, read);
  }

  lemma TitleTold(d: Delivery)
    ensures LongestPrefix(Title(d), if d.subject.Some? && d.subject.value != "" then d.subject.value else "Pulse CRM", 240)
  {
    hide Encode, Truncate;
    TruncateIsLongestPrefix(if d.subject.None? || d.subject.value == "" then "Pulse CRM" else d.subject.value, MAX_TITLE_BYTES);
  }

  lemma BodyTold(d: Delivery, read: UuidReader)
    ensures exists first :: LongestPrefix(first, d.body, 2600) && LongestPrefix(Shown(d, read), first, Allowed(d, read, first))
  {
    hide Encode, Truncate, PayloadOf;
    var body := Truncate(d.body, MAX_BODY_BYTES);
    TruncateIsLongestPrefix(d.body, MAX_BODY_BYTES);
    var size := |Encode(PayloadOf(d, read, body))|;
    if size > MAX_PAYLOAD_BYTES {
      TruncateIsLongestPrefix(body, Allowed(d, read, body));
      assert Shown(d, read) == Shortened(body, size - MAX_PAYLOAD_BYTES) == Truncate(body, Allowed(d, read, body));
    }
    assert LongestPrefix(body, d.body, 2600) && LongestPrefix(Shown(d, read), body, Allowed(d, read, body));
  }

  lemma LinkTold(d: Delivery, read: UuidReader)
    ensures Leads(Url(d, read), d, read) && Tag(d) == "notification:" + d.id
  {
  }
}
