/**
 * The four compose links the contact form builds (js/script.js:476-484): a
 * mailto URI in the form of section 2 of RFC 6068, with "subject" and "body"
 * header fields, and the Gmail, Outlook and Yahoo compose URLs. Every value is
 * passed through encodeURIComponent; the mailto address is written raw.
 *
 * Their partner is a reader of such links: the target before the first '?',
 * and the query after it split into name=value fields at '&', a value being
 * decoded with decodeURIComponent. Each link reads back to exactly the
 * address, subject and body it was built from.
 */
module MailLinks {
  import opened Wrappers
  import opened UriComponent
  import opened LinkText

  const ToAddress: string := "chukwudi.enoch.work@gmail.com"

  const GmailBase: string := "https://mail.google.com/mail/"
  const OutlookBase: string := "https://outlook.live.com/owa/"
  const OutlookPath: string := "/mail/action/compose"
  const YahooBase: string := "https://compose.mail.yahoo.com/"

  function MailtoLink(to: string, subject: string, body: string): string {
    "mailto:" + to + "?subject=" + Encode(subject) + "&body=" + Encode(body)
  }

  function GmailLink(to: string, subject: string, body: string): string {
    GmailBase + "?view=cm&fs=1&to=" + Encode(to)
    + "&su=" + Encode(subject) + "&body=" + Encode(body)
  }

  function OutlookLink(to: string, subject: string, body: string): string {
    OutlookBase + "?path=" + OutlookPath + "&to=" + Encode(to)
    + "&subject=" + Encode(subject) + "&body=" + Encode(body)
  }

  function YahooLink(to: string, subject: string, body: string): string {
    YahooBase + "?to=" + Encode(to)
    + "&subject=" + Encode(subject) + "&body=" + Encode(body)
  }

  // ---------------------------------------------------------------------
  // Reading a link back

  /** The first position of c in s. */
  function IndexOf(s: string, c: char): (r: Option<nat>)
    ensures r.Some? ==> r.value < |s| && s[r.value] == c && c !in s[..r.value]
    ensures r.None? <==> c !in s
  {
    if s == [] then None
    else if s[0] == c then Some(0)
    else
      match IndexOf(s[1..], c)
      case None => None
      case Some(i) =>
        assert s[..i + 1] == [s[0]] + s[1..][..i];
        Some(i + 1)
  }

  /** The part of a link before its first '?'. */
  function Target(url: string): string {
    match IndexOf(url, '?')
    case None => url
    case Some(i) => url[..i]
  }

  /** The part of a link after its first '?', empty when there is none. */
  function Query(url: string): string {
    match IndexOf(url, '?')
    case None => []
    case Some(i) => url[i + 1..]
  }

  /** The pieces of s between the occurrences of sep. */
  function SplitOn(s: string, sep: char): (r: seq<string>)
    ensures |r| >= 1
    decreases |s|
  {
    match IndexOf(s, sep)
    case None => [s]
    case Some(i) => [s[..i]] + SplitOn(s[i + 1..], sep)
  }

  /** A field "name=value" as its name and raw value; a field without '=' has an empty value. */
  function Field(f: string): (string, string) {
    match IndexOf(f, '=')
    case None => (f, [])
    case Some(i) => (f[..i], f[i + 1..])
  }

  function FieldsOf(pieces: seq<string>): (r: seq<(string, string)>)
    ensures |r| == |pieces|
  {
    if pieces == [] then [] else [Field(pieces[0])] + FieldsOf(pieces[1..])
  }

  /** The fields of a link's query, in order, with their raw values. */
  function Fields(url: string): seq<(string, string)> {
    FieldsOf(SplitOn(Query(url), '&'))
  }

  /** The raw value of the first field with that name. */
  function Lookup(fields: seq<(string, string)>, name: string): (r: Option<string>)
    ensures r.None? <==> forall i :: 0 <= i < |fields| ==> fields[i].0 != name
  {
    if fields == [] then None
    else if fields[0].0 == name then Some(fields[0].1)
    else
      var r := Lookup(fields[1..], name);
      assert forall i :: 1 <= i < |fields| ==> fields[i] == fields[1..][i - 1];
      r
  }

  /** The decoded value of the first field with that name; None when absent or badly escaped. */
  function Param(url: string, name: string): Option<string> {
    match Lookup(Fields(url), name)
    case None => None
    case Some(v) => Decode(v)
  }

  // ---------------------------------------------------------------------
  // Reading links of the shape the form writes

  /** A field "name=value" followed by '&' and more fields reads as that field, then the others. */
  lemma {:induction false} ConsField(n: string, v: string, rest: string, tail: seq<(string, string)>)
    requires '=' !in n && '&' !in n && '&' !in v
    requires FieldsOf(SplitOn(rest, '&')) == tail
    ensures FieldsOf(SplitOn((n + "=" + v) + "&" + rest, '&')) == [(n, v)] + tail
  {
    FieldOf(n, v);
    SplitFields(n + "=" + v, rest);
  }

  /** A lone field "name=value" reads as that field. */
  lemma {:induction false} OneField(n: string, v: string)
    requires '=' !in n && '&' !in n && '&' !in v
    ensures FieldsOf(SplitOn(n + "=" + v, '&')) == [(n, v)]
  {
    FieldOf(n, v);
    LastFields(n + "=" + v);
  }

  /** The fields of a query of two to five name=value pieces. */
  lemma {:induction false} TwoFields(n0: string, v0: string, n1: string, v1: string)
    requires '=' !in n0 && '&' !in n0 && '&' !in v0
    requires '=' !in n1 && '&' !in n1 && '&' !in v1
    ensures FieldsOf(SplitOn((n0 + "=" + v0) + "&" + (n1 + "=" + v1), '&')) == [(n0, v0), (n1, v1)]
  {
    OneField(n1, v1);
    ConsField(n0, v0, n1 + "=" + v1, [(n1, v1)]);
  }

  lemma {:induction false} ThreeFields(n0: string, v0: string, n1: string, v1: string, n2: string, v2: string)
    requires '=' !in n0 && '&' !in n0 && '&' !in v0
    requires '=' !in n1 && '&' !in n1 && '&' !in v1
    requires '=' !in n2 && '&' !in n2 && '&' !in v2
    ensures FieldsOf(SplitOn((n0 + "=" + v0) + "&" + ((n1 + "=" + v1) + "&" + (n2 + "=" + v2)), '&')) == [(n0, v0), (n1, v1), (n2, v2)]
  {
    TwoFields(n1, v1, n2, v2);
    ConsField(n0, v0, (n1 + "=" + v1) + "&" + (n2 + "=" + v2), [(n1, v1), (n2, v2)]);
    PrependToTwo((n0, v0), (n1, v1), (n2, v2));
  }

  lemma {:induction false} FourFields(n0: string, v0: string, n1: string, v1: string, n2: string, v2: string, n3: string, v3: string)
    requires '=' !in n0 && '&' !in n0 && '&' !in v0
    requires '=' !in n1 && '&' !in n1 && '&' !in v1
    requires '=' !in n2 && '&' !in n2 && '&' !in v2
    requires '=' !in n3 && '&' !in n3 && '&' !in v3
    ensures FieldsOf(SplitOn((n0 + "=" + v0) + "&" + ((n1 + "=" + v1) + "&" + ((n2 + "=" + v2) + "&" + (n3 + "=" + v3))), '&')) == [(n0, v0), (n1, v1), (n2, v2), (n3, v3)]
  {
    ThreeFields(n1, v1, n2, v2, n3, v3);
    ConsField(n0, v0, (n1 + "=" + v1) + "&" + ((n2 + "=" + v2) + "&" + (n3 + "=" + v3)), [(n1, v1), (n2, v2), (n3, v3)]);
    PrependToThree((n0, v0), (n1, v1), (n2, v2), (n3, v3));
  }

  lemma {:induction false} FiveFields(n0: string, v0: string, n1: string, v1: string, n2: string, v2: string, n3: string, v3: string, n4: string, v4: string)
    requires '=' !in n0 && '&' !in n0 && '&' !in v0
    requires '=' !in n1 && '&' !in n1 && '&' !in v1
    requires '=' !in n2 && '&' !in n2 && '&' !in v2
    requires '=' !in n3 && '&' !in n3 && '&' !in v3
    requires '=' !in n4 && '&' !in n4 && '&' !in v4
    ensures FieldsOf(SplitOn((n0 + "=" + v0) + "&" + ((n1 + "=" + v1) + "&" + ((n2 + "=" + v2) + "&" + ((n3 + "=" + v3) + "&" + (n4 + "=" + v4)))), '&')) == [(n0, v0), (n1, v1), (n2, v2), (n3, v3), (n4, v4)]
  {
    FourFields(n1, v1, n2, v2, n3, v3, n4, v4);
    ConsField(n0, v0, (n1 + "=" + v1) + "&" + ((n2 + "=" + v2) + "&" + ((n3 + "=" + v3) + "&" + (n4 + "=" + v4))), [(n1, v1), (n2, v2), (n3, v3), (n4, v4)]);
    PrependToFour((n0, v0), (n1, v1), (n2, v2), (n3, v3), (n4, v4));
  }

  lemma {:induction false} PrependToTwo<T>(a: T, b: T, c: T)
    ensures [a] + [b, c] == [a, b, c]
  {
  }

  lemma {:induction false} PrependToThree<T>(a: T, b: T, c: T, d: T)
    ensures [a] + [b, c, d] == [a, b, c, d]
  {
  }

  lemma {:induction false} PrependToFour<T>(a: T, b: T, c: T, d: T, e: T)
    ensures [a] + [b, c, d, e] == [a, b, c, d, e]
  {
  }

  /**
   * A link written as base, "?name1=", value1, "&name2=", value2 (the mailto
   * link) has target base and exactly those two fields.
   */
  lemma {:induction false} TwoFieldLink(url: string, base: string, k1: string, k2: string,
                                        n1: string, v1: string, n2: string, v2: string)
    requires url == base + k1 + v1 + k2 + v2
    requires '?' !in base
    requires k1 == "?" + n1 + "=" && k2 == "&" + n2 + "="
    requires '=' !in n1 && '&' !in n1 && '&' !in v1
    requires '=' !in n2 && '&' !in n2 && '&' !in v2
    ensures Target(url) == base
    ensures Fields(url) == [(n1, v1), (n2, v2)]
  {
    TwoFieldText(base, k1, k2, n1, v1, n2, v2);
    FieldsOfQuery(url, base, (n1 + "=" + v1) + "&" + (n2 + "=" + v2));
    TwoFields(n1, v1, n2, v2);
  }

  /** The same for three fields "?name1=value1&name2=value2&name3=value3" (the Yahoo link). */
  lemma {:induction false} ThreeFieldLink(url: string, base: string, k1: string, k2: string, k3: string,
                                          n1: string, v1: string, n2: string, v2: string, n3: string, v3: string)
    requires url == base + k1 + v1 + k2 + v2 + k3 + v3
    requires '?' !in base
    requires k1 == "?" + n1 + "=" && k2 == "&" + n2 + "=" && k3 == "&" + n3 + "="
    requires '=' !in n1 && '&' !in n1 && '&' !in v1
    requires '=' !in n2 && '&' !in n2 && '&' !in v2
    requires '=' !in n3 && '&' !in n3 && '&' !in v3
    ensures Target(url) == base
    ensures Fields(url) == [(n1, v1), (n2, v2), (n3, v3)]
  {
    ThreeFieldText(base, k1, k2, k3, n1, v1, n2, v2, n3, v3);
    FieldsOfQuery(url, base, (n1 + "=" + v1) + "&" + ((n2 + "=" + v2) + "&" + (n3 + "=" + v3)));
    ThreeFields(n1, v1, n2, v2, n3, v3);
  }

  /** The same for four fields "?name0=value0&name1=value1&name2=value2&name3=value3" (the Outlook link). */
  lemma {:induction false} FourFieldLink(url: string, base: string, k0: string, k1: string, k2: string, k3: string,
                                         n0: string, v0: string, n1: string, v1: string,
                                         n2: string, v2: string, n3: string, v3: string)
    requires url == base + k0 + v0 + k1 + v1 + k2 + v2 + k3 + v3
    requires '?' !in base
    requires k0 == "?" + n0 + "=" && k1 == "&" + n1 + "=" && k2 == "&" + n2 + "=" && k3 == "&" + n3 + "="
    requires '=' !in n0 && '&' !in n0 && '&' !in v0
    requires '=' !in n1 && '&' !in n1 && '&' !in v1
    requires '=' !in n2 && '&' !in n2 && '&' !in v2
    requires '=' !in n3 && '&' !in n3 && '&' !in v3
    ensures Target(url) == base
    ensures Fields(url) == [(n0, v0), (n1, v1), (n2, v2), (n3, v3)]
  {
    FourFieldText(base, k0, k1, k2, k3, n0, v0, n1, v1, n2, v2, n3, v3);
    FieldsOfQuery(url, base, (n0 + "=" + v0) + "&" + ((n1 + "=" + v1) + "&" + ((n2 + "=" + v2) + "&" + (n3 + "=" + v3))));
    FourFields(n0, v0, n1, v1, n2, v2, n3, v3);
  }

  /**
   * Five fields, the first two written out in the first key:
   * "?name0=value0&name1=value1&name2=" value2 "&name3=" value3 "&name4=" value4 (the Gmail link).
   */
  lemma {:induction false} FiveFieldLink(url: string, base: string, k1: string, k2: string, k3: string,
                                         n0: string, v0: string, n1: string, v1: string, n2: string, v2: string,
                                         n3: string, v3: string, n4: string, v4: string)
    requires url == base + k1 + v2 + k2 + v3 + k3 + v4
    requires '?' !in base
    requires k1 == "?" + n0 + "=" + v0 + "&" + n1 + "=" + v1 + "&" + n2 + "="
    requires k2 == "&" + n3 + "=" && k3 == "&" + n4 + "="
    requires '=' !in n0 && '&' !in n0 && '&' !in v0
    requires '=' !in n1 && '&' !in n1 && '&' !in v1
    requires '=' !in n2 && '&' !in n2 && '&' !in v2
    requires '=' !in n3 && '&' !in n3 && '&' !in v3
    requires '=' !in n4 && '&' !in n4 && '&' !in v4
    ensures Target(url) == base
    ensures Fields(url) == [(n0, v0), (n1, v1), (n2, v2), (n3, v3), (n4, v4)]
  {
    FiveFieldText(base, k1, k2, k3, n0, v0, n1, v1, n2, v2, n3, v3, n4, v4);
    FieldsOfQuery(url, base, (n0 + "=" + v0) + "&" + ((n1 + "=" + v1) + "&" + ((n2 + "=" + v2) + "&" + ((n3 + "=" + v3) + "&" + (n4 + "=" + v4)))));
    FiveFields(n0, v0, n1, v1, n2, v2, n3, v3, n4, v4);
  }

  /** A name's value is that of the first field, when the first field has that name... */
  lemma {:induction false} LookupFirst(n: string, v: string, rest: seq<(string, string)>)
    ensures Lookup([(n, v)] + rest, n) == Some(v)
  {
  }

  /** ...and is looked for among the others otherwise. */
  lemma {:induction false} LookupLater(n: string, v: string, rest: seq<(string, string)>, name: string)
    requires n != name
    ensures Lookup([(n, v)] + rest, name) == Lookup(rest, name)
  {
    assert ([(n, v)] + rest)[1..] == rest;
  }

  /** When a link's field names all differ, each name gives its own field's decoded value. */
  lemma {:induction false} ReadTwo(url: string, n0: string, v0: string, n1: string, v1: string)
    requires Fields(url) == [(n0, v0), (n1, v1)]
    requires n0 != n1
    ensures Param(url, n0) == Decode(v0)
    ensures Param(url, n1) == Decode(v1)
  {
    var t2: seq<(string, string)> := [];
    var t1 := [(n1, v1)] + t2;
    var t0 := [(n0, v0)] + t1;
    assert t0 == [(n0, v0), (n1, v1)];
    assert Lookup(t0, n0) == Some(v0) by {
      LookupFirst(n0, v0, t1);
    }
    assert Lookup(t0, n1) == Some(v1) by {
      LookupLater(n0, v0, t1, n1);
      LookupFirst(n1, v1, t2);
    }
  }

  lemma {:induction false} ReadThree(url: string, n0: string, v0: string, n1: string, v1: string, n2: string, v2: string)
    requires Fields(url) == [(n0, v0), (n1, v1), (n2, v2)]
    requires n0 != n1 && n0 != n2 && n1 != n2
    ensures Param(url, n0) == Decode(v0)
    ensures Param(url, n1) == Decode(v1)
    ensures Param(url, n2) == Decode(v2)
  {
    var t3: seq<(string, string)> := [];
    var t2 := [(n2, v2)] + t3;
    var t1 := [(n1, v1)] + t2;
    var t0 := [(n0, v0)] + t1;
    assert t0 == [(n0, v0), (n1, v1), (n2, v2)];
    assert Lookup(t0, n0) == Some(v0) by {
      LookupFirst(n0, v0, t1);
    }
    assert Lookup(t0, n1) == Some(v1) by {
      LookupLater(n0, v0, t1, n1);
      LookupFirst(n1, v1, t2);
    }
    assert Lookup(t0, n2) == Some(v2) by {
      LookupLater(n0, v0, t1, n2);
      LookupLater(n1, v1, t2, n2);
      LookupFirst(n2, v2, t3);
    }
  }

  lemma {:induction false} ReadFour(url: string, n0: string, v0: string, n1: string, v1: string, n2: string, v2: string, n3: string, v3: string)
    requires Fields(url) == [(n0, v0), (n1, v1), (n2, v2), (n3, v3)]
    requires n0 != n1 && n0 != n2 && n0 != n3 && n1 != n2 && n1 != n3 && n2 != n3
    ensures Param(url, n0) == Decode(v0)
    ensures Param(url, n1) == Decode(v1)
    ensures Param(url, n2) == Decode(v2)
    ensures Param(url, n3) == Decode(v3)
  {
    var t4: seq<(string, string)> := [];
    var t3 := [(n3, v3)] + t4;
    var t2 := [(n2, v2)] + t3;
    var t1 := [(n1, v1)] + t2;
    var t0 := [(n0, v0)] + t1;
    assert t0 == [(n0, v0), (n1, v1), (n2, v2), (n3, v3)];
    assert Lookup(t0, n0) == Some(v0) by {
      LookupFirst(n0, v0, t1);
    }
    assert Lookup(t0, n1) == Some(v1) by {
      LookupLater(n0, v0, t1, n1);
      LookupFirst(n1, v1, t2);
    }
    assert Lookup(t0, n2) == Some(v2) by {
      LookupLater(n0, v0, t1, n2);
      LookupLater(n1, v1, t2, n2);
      LookupFirst(n2, v2, t3);
    }
    assert Lookup(t0, n3) == Some(v3) by {
      LookupLater(n0, v0, t1, n3);
      LookupLater(n1, v1, t2, n3);
      LookupLater(n2, v2, t3, n3);
      LookupFirst(n3, v3, t4);
    }
  }

  lemma {:induction false} ReadFive(url: string, n0: string, v0: string, n1: string, v1: string, n2: string, v2: string, n3: string, v3: string, n4: string, v4: string)
    requires Fields(url) == [(n0, v0), (n1, v1), (n2, v2), (n3, v3), (n4, v4)]
    requires n0 != n1 && n0 != n2 && n0 != n3 && n0 != n4 && n1 != n2 && n1 != n3 && n1 != n4 && n2 != n3 && n2 != n4 && n3 != n4
    ensures Param(url, n0) == Decode(v0)
    ensures Param(url, n1) == Decode(v1)
    ensures Param(url, n2) == Decode(v2)
    ensures Param(url, n3) == Decode(v3)
    ensures Param(url, n4) == Decode(v4)
  {
    var t5: seq<(string, string)> := [];
    var t4 := [(n4, v4)] + t5;
    var t3 := [(n3, v3)] + t4;
    var t2 := [(n2, v2)] + t3;
    var t1 := [(n1, v1)] + t2;
    var t0 := [(n0, v0)] + t1;
    assert t0 == [(n0, v0), (n1, v1), (n2, v2), (n3, v3), (n4, v4)];
    assert Lookup(t0, n0) == Some(v0) by {
      LookupFirst(n0, v0, t1);
    }
    assert Lookup(t0, n1) == Some(v1) by {
      LookupLater(n0, v0, t1, n1);
      LookupFirst(n1, v1, t2);
    }
    assert Lookup(t0, n2) == Some(v2) by {
      LookupLater(n0, v0, t1, n2);
      LookupLater(n1, v1, t2, n2);
      LookupFirst(n2, v2, t3);
    }
    assert Lookup(t0, n3) == Some(v3) by {
      LookupLater(n0, v0, t1, n3);
      LookupLater(n1, v1, t2, n3);
      LookupLater(n2, v2, t3, n3);
      LookupFirst(n3, v3, t4);
    }
    assert Lookup(t0, n4) == Some(v4) by {
      LookupLater(n0, v0, t1, n4);
      LookupLater(n1, v1, t2, n4);
      LookupLater(n2, v2, t3, n4);
      LookupLater(n3, v3, t4, n4);
      LookupFirst(n4, v4, t5);
    }
  }

  // ---------------------------------------------------------------------
  // Each link reads back to what it was built from

  /** The mailto link targets the raw address and carries the subject and body. */
  lemma {:induction false} MailtoReadsBack(to: string, subject: string, body: string)
    requires '?' !in to
    ensures Target(MailtoLink(to, subject, body)) == "mailto:" + to
    ensures Param(MailtoLink(to, subject, body), "subject") == Some(subject)
    ensures Param(MailtoLink(to, subject, body), "body") == Some(body)
  {
    var url := MailtoLink(to, subject, body);
    MailtoFields(to, subject, body);
    SubjectBodyNames();
    ReadTwo(url, "subject", Encode(subject), "body", Encode(body));
    DecodeEncode(subject);
    DecodeEncode(body);
  }

  lemma {:induction false} MailtoFields(to: string, subject: string, body: string)
    requires '?' !in to
    ensures Target(MailtoLink(to, subject, body)) == "mailto:" + to
    ensures Fields(MailtoLink(to, subject, body)) == [("subject", Encode(subject)), ("body", Encode(body))]
  {
    EncodedIsPlain(Encode(subject));
    EncodedIsPlain(Encode(body));
    MailtoKeys();
    SubjectBodyNames();
    TwoFieldLink(MailtoLink(to, subject, body), "mailto:" + to, "?subject=", "&body=",
                 "subject", Encode(subject), "body", Encode(body));
  }

  /** The Gmail link opens the full-screen composer with the address, subject and body. */
  lemma {:induction false} GmailReadsBack(to: string, subject: string, body: string)
    ensures Target(GmailLink(to, subject, body)) == GmailBase
    ensures Param(GmailLink(to, subject, body), "view") == Some("cm")
    ensures Param(GmailLink(to, subject, body), "fs") == Some("1")
    ensures Param(GmailLink(to, subject, body), "to") == Some(to)
    ensures Param(GmailLink(to, subject, body), "su") == Some(subject)
    ensures Param(GmailLink(to, subject, body), "body") == Some(body)
  {
    var url := GmailLink(to, subject, body);
    GmailFields(to, subject, body);
    GmailNames();
    ReadFive(url, "view", "cm", "fs", "1", "to", Encode(to), "su", Encode(subject), "body", Encode(body));
    GmailConstantsDecode();
    DecodeEncode(to);
    DecodeEncode(subject);
    DecodeEncode(body);
  }

  lemma {:induction false} GmailFields(to: string, subject: string, body: string)
    ensures Target(GmailLink(to, subject, body)) == GmailBase
    ensures Fields(GmailLink(to, subject, body))
         == [("view", "cm"), ("fs", "1"), ("to", Encode(to)), ("su", Encode(subject)), ("body", Encode(body))]
  {
    EncodedIsPlain(Encode(to));
    EncodedIsPlain(Encode(subject));
    EncodedIsPlain(Encode(body));
    GmailKeys();
    GmailNames();
    assert GmailBase == "https://mail.google.com/mail/";
    FiveFieldLink(GmailLink(to, subject, body), GmailBase, "?view=cm&fs=1&to=", "&su=", "&body=",
                  "view", "cm", "fs", "1", "to", Encode(to), "su", Encode(subject), "body", Encode(body));
  }

  /** The Outlook link opens the compose page with the address, subject and body. */
  lemma {:induction false} OutlookReadsBack(to: string, subject: string, body: string)
    ensures Target(OutlookLink(to, subject, body)) == OutlookBase
    ensures Param(OutlookLink(to, subject, body), "path") == Some(OutlookPath)
    ensures Param(OutlookLink(to, subject, body), "to") == Some(to)
    ensures Param(OutlookLink(to, subject, body), "subject") == Some(subject)
    ensures Param(OutlookLink(to, subject, body), "body") == Some(body)
  {
    var url := OutlookLink(to, subject, body);
    OutlookFields(to, subject, body);
    OutlookNames();
    ReadFour(url, "path", OutlookPath, "to", Encode(to), "subject", Encode(subject), "body", Encode(body));
    OutlookConstantsDecode();
    DecodeEncode(to);
    DecodeEncode(subject);
    DecodeEncode(body);
  }

  lemma {:induction false} OutlookFields(to: string, subject: string, body: string)
    ensures Target(OutlookLink(to, subject, body)) == OutlookBase
    ensures Fields(OutlookLink(to, subject, body))
         == [("path", OutlookPath), ("to", Encode(to)), ("subject", Encode(subject)), ("body", Encode(body))]
  {
    EncodedIsPlain(Encode(to));
    EncodedIsPlain(Encode(subject));
    EncodedIsPlain(Encode(body));
    OutlookKeys();
    OutlookNames();
    assert OutlookBase == "https://outlook.live.com/owa/" && OutlookPath == "/mail/action/compose";
    FourFieldLink(OutlookLink(to, subject, body), OutlookBase, "?path=", "&to=", "&subject=", "&body=",
                  "path", OutlookPath, "to", Encode(to), "subject", Encode(subject), "body", Encode(body));
  }

  /** The Yahoo link opens the composer with the address, subject and body. */
  lemma {:induction false} YahooReadsBack(to: string, subject: string, body: string)
    ensures Target(YahooLink(to, subject, body)) == YahooBase
    ensures Param(YahooLink(to, subject, body), "to") == Some(to)
    ensures Param(YahooLink(to, subject, body), "subject") == Some(subject)
    ensures Param(YahooLink(to, subject, body), "body") == Some(body)
  {
    var url := YahooLink(to, subject, body);
    YahooFields(to, subject, body);
    YahooNames();
    ReadThree(url, "to", Encode(to), "subject", Encode(subject), "body", Encode(body));
    DecodeEncode(to);
    DecodeEncode(subject);
    DecodeEncode(body);
  }

  lemma {:induction false} YahooFields(to: string, subject: string, body: string)
    ensures Target(YahooLink(to, subject, body)) == YahooBase
    ensures Fields(YahooLink(to, subject, body)) == [("to", Encode(to)), ("subject", Encode(subject)), ("body", Encode(body))]
  {
    EncodedIsPlain(Encode(to));
    EncodedIsPlain(Encode(subject));
    EncodedIsPlain(Encode(body));
    YahooKeys();
    YahooNames();
    assert YahooBase == "https://compose.mail.yahoo.com/";
    ThreeFieldLink(YahooLink(to, subject, body), YahooBase, "?to=", "&subject=", "&body=",
                   "to", Encode(to), "subject", Encode(subject), "body", Encode(body));
  }

  /** The fixed values of the webmail links decode to themselves. */
  lemma {:induction false} GmailConstantsDecode()
    ensures Decode("cm") == Some("cm") && Decode("1") == Some("1")
  {
    UnreservedDecodes("cm");
    UnreservedDecodes("1");
  }

  lemma {:induction false} OutlookConstantsDecode()
    ensures Decode(OutlookPath) == Some(OutlookPath)
  {
    PlainDecodes(OutlookPath);
  }

  /** The address the form writes to can stand raw in a mailto link. */
  lemma {:induction false} ToAddressHasNoQuery()
    ensures '?' !in ToAddress
  {
    assert ToAddress == "chukwudi.enoch.work@gmail.com";
  }

  // ---------------------------------------------------------------------
  // Helpers

  /** An encoded value holds neither '&' nor '=' nor '?'. */
  lemma {:induction false} EncodedIsPlain(v: string)
    requires IsEncodedText(v)
    ensures '&' !in v && '=' !in v && '?' !in v
  {
  }

  lemma {:induction false} AtFirstQuestionMark(base: string, q: string)
    requires '?' !in base
    ensures Target(base + "?" + q) == base && Query(base + "?" + q) == q
  {
    FirstOccurrence(base, '?', q);
    assert (base + "?" + q)[..|base|] == base;
    assert (base + "?" + q)[|base| + 1..] == q;
  }

  lemma {:induction false} FirstOccurrence(a: string, c: char, b: string)
    requires c !in a
    ensures IndexOf(a + [c] + b, c) == Some(|a|)
    decreases |a|
  {
    var s := a + [c] + b;
    if a != [] {
      assert s[1..] == a[1..] + [c] + b;
      FirstOccurrence(a[1..], c, b);
    }
  }

  lemma {:induction false} FieldsOfQuery(url: string, base: string, q: string)
    requires '?' !in base && url == base + "?" + q
    ensures Target(url) == base && Fields(url) == FieldsOf(SplitOn(q, '&'))
  {
    AtFirstQuestionMark(base, q);
  }

  lemma {:induction false} SplitFields(a: string, rest: string)
    requires '&' !in a
    ensures FieldsOf(SplitOn(a + "&" + rest, '&')) == [Field(a)] + FieldsOf(SplitOn(rest, '&'))
  {
    SplitFirst(a, rest);
    var pieces := [a] + SplitOn(rest, '&');
    assert pieces[0] == a && pieces[1..] == SplitOn(rest, '&');
  }

  lemma {:induction false} LastFields(a: string)
    requires '&' !in a
    ensures FieldsOf(SplitOn(a, '&')) == [Field(a)]
  {
    SplitLast(a);
    assert [a][1..] == [];
  }

  lemma {:induction false} SplitFirst(a: string, rest: string)
    requires '&' !in a
    ensures SplitOn(a + "&" + rest, '&') == [a] + SplitOn(rest, '&')
  {
    var s := a + "&" + rest;
    FirstOccurrence(a, '&', rest);
    assert s[..|a|] == a && s[|a| + 1..] == rest;
  }

  lemma {:induction false} SplitLast(a: string)
    requires '&' !in a
    ensures SplitOn(a, '&') == [a]
  {
  }

  /** A field named by a name without '=' reads back with its value. */
  lemma {:induction false} FieldOf(name: string, v: string)
    requires '=' !in name && '&' !in name && '&' !in v
    ensures '&' !in name + "=" + v
    ensures Field(name + "=" + v) == (name, v)
  {
    var f := name + "=" + v;
    FirstOccurrence(name, '=', v);
    assert f[..|name|] == name && f[|name| + 1..] == v;
  }

  /** Text without '%' decodes to itself. */
  lemma {:induction false} PlainDecodes(s: string)
    requires '%' !in s
    ensures Decode(s) == Some(s)
    decreases |s|
  {
    if s != [] {
      assert s[0] != '%';
      assert '%' !in s[1..];
      PlainDecodes(s[1..]);
      assert [s[0]] + s[1..] == s;
    }
  }

  lemma {:induction false} UnreservedDecodes(s: string)
    requires AllUnreserved(s)
    ensures Decode(s) == Some(s)
  {
    assert Encode(s) == s;
    DecodeEncode(s);
  }
}

/**
 * Facts about the text of the links alone: how their fixed pieces split into
 * names, '=', '&' and '?', and how the pieces regroup.
 */
module LinkText {
  lemma {:induction false} TwoFieldText(base: string, k1: string, k2: string,
                                        n1: string, v1: string, n2: string, v2: string)
    requires k1 == "?" + n1 + "=" && k2 == "&" + n2 + "="
    ensures base + k1 + v1 + k2 + v2 == base + "?" + ((n1 + "=" + v1) + "&" + (n2 + "=" + v2))
  {
  }

  lemma {:induction false} ThreeFieldText(base: string, k1: string, k2: string, k3: string,
                                          n1: string, v1: string, n2: string, v2: string, n3: string, v3: string)
    requires k1 == "?" + n1 + "=" && k2 == "&" + n2 + "=" && k3 == "&" + n3 + "="
    ensures base + k1 + v1 + k2 + v2 + k3 + v3 == base + "?" + ((n1 + "=" + v1) + "&" + ((n2 + "=" + v2) + "&" + (n3 + "=" + v3)))
  {
  }

  lemma {:induction false} FourFieldText(base: string, k0: string, k1: string, k2: string, k3: string,
                                         n0: string, v0: string, n1: string, v1: string,
                                         n2: string, v2: string, n3: string, v3: string)
    requires k0 == "?" + n0 + "=" && k1 == "&" + n1 + "=" && k2 == "&" + n2 + "=" && k3 == "&" + n3 + "="
    ensures base + k0 + v0 + k1 + v1 + k2 + v2 + k3 + v3 == base + "?" + ((n0 + "=" + v0) + "&" + ((n1 + "=" + v1) + "&" + ((n2 + "=" + v2) + "&" + (n3 + "=" + v3))))
  {
  }

  lemma {:induction false} FiveFieldText(base: string, k1: string, k2: string, k3: string,
                                         n0: string, v0: string, n1: string, v1: string, n2: string, v2: string,
                                         n3: string, v3: string, n4: string, v4: string)
    requires k1 == "?" + n0 + "=" + v0 + "&" + n1 + "=" + v1 + "&" + n2 + "="
    requires k2 == "&" + n3 + "=" && k3 == "&" + n4 + "="
    ensures base + k1 + v2 + k2 + v3 + k3 + v4 == base + "?" + ((n0 + "=" + v0) + "&" + ((n1 + "=" + v1) + "&" + ((n2 + "=" + v2) + "&" + ((n3 + "=" + v3) + "&" + (n4 + "=" + v4)))))
  {
  }

  lemma {:induction false} MailtoKeys()
    ensures "?subject=" == "?" + "subject" + "=" && "&body=" == "&" + "body" + "="
  {
  }

  lemma {:induction false} GmailKeys()
    ensures "?view=cm&fs=1&to=" == "?" + "view" + "=" + "cm" + "&" + "fs" + "=" + "1" + "&" + "to" + "="
    ensures "&su=" == "&" + "su" + "=" && "&body=" == "&" + "body" + "="
    ensures '?' !in "https://mail.google.com/mail/"
  {
  }

  lemma {:induction false} OutlookKeys()
    ensures "?path=" == "?" + "path" + "=" && "&to=" == "&" + "to" + "="
    ensures "&subject=" == "&" + "subject" + "=" && "&body=" == "&" + "body" + "="
    ensures '?' !in "https://outlook.live.com/owa/"
  {
  }

  lemma {:induction false} YahooKeys()
    ensures "?to=" == "?" + "to" + "="
    ensures "&subject=" == "&" + "subject" + "=" && "&body=" == "&" + "body" + "="
    ensures '?' !in "https://compose.mail.yahoo.com/"
  {
  }

  /** Field names hold neither '=' nor '&', and within one link they all differ. */
  lemma {:induction false} SubjectBodyNames()
    ensures '=' !in "subject" && '&' !in "subject" && '=' !in "body" && '&' !in "body"
    ensures "subject" != "body"
  {
    assert |"subject"| != |"body"|;
  }

  lemma {:induction false} GmailNames()
    ensures '=' !in "view" && '&' !in "view" && '=' !in "fs" && '&' !in "fs" && '=' !in "to" && '&' !in "to"
    ensures '=' !in "su" && '&' !in "su" && '=' !in "body" && '&' !in "body"
    ensures '&' !in "cm" && '&' !in "1"
    ensures "view" != "fs" && "view" != "to" && "view" != "su" && "view" != "body"
    ensures "fs" != "to" && "fs" != "su" && "fs" != "body"
    ensures "to" != "su" && "to" != "body" && "su" != "body"
  {
    assert |"view"| != |"fs"| && |"view"| != |"to"| && |"view"| != |"su"| && "view"[0] != "body"[0];
    assert "fs"[0] != "to"[0] && "fs"[0] != "su"[0] && |"fs"| != |"body"|;
    assert "to"[0] != "su"[0] && |"to"| != |"body"| && |"su"| != |"body"|;
  }

  lemma {:induction false} OutlookNames()
    ensures '=' !in "path" && '&' !in "path" && '=' !in "to" && '&' !in "to"
    ensures '=' !in "subject" && '&' !in "subject" && '=' !in "body" && '&' !in "body"
    ensures '&' !in "/mail/action/compose"
    ensures "path" != "to" && "path" != "subject" && "path" != "body"
    ensures "to" != "subject" && "to" != "body" && "subject" != "body"
  {
    assert |"path"| != |"to"| && |"path"| != |"subject"| && "path"[0] != "body"[0];
    assert |"to"| != |"subject"| && |"to"| != |"body"| && |"subject"| != |"body"|;
  }

  lemma {:induction false} YahooNames()
    ensures '=' !in "to" && '&' !in "to" && '=' !in "subject" && '&' !in "subject" && '=' !in "body" && '&' !in "body"
    ensures "to" != "subject" && "to" != "body" && "subject" != "body"
  {
    assert |"to"| != |"subject"| && |"to"| != |"body"| && |"subject"| != |"body"|;
  }
}
