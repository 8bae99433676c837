/** The detail screen of one collection point: the strings it displays (the
    items line and the address), the arguments of its two contact hand-offs
    (the WhatsApp deep link and the mail request), and the guard that renders
    nothing until the point has been fetched. Each string builder is paired
    with a parser that recovers its inputs, for the items line for a non-empty
    title list in which no title holds a comma, and for the address when the
    state code holds no '-'. */
module Detail {

  import opened Wrappers

  /** The `point` part of the detail response. */
  datatype PointInfo = PointInfo(image: string, imageUrl: string, name: string,
                                 email: string, whatsapp: string, city: string, uf: string)

  /** One entry of the `items` part of the detail response. */
  datatype ItemTitle = ItemTitle(title: string)

  /** The screen's single `data` slot. It starts as an empty object, so both
      parts are absent until the response is stored. */
  datatype Data = Data(point: Option<PointInfo>, items: Option<seq<ItemTitle>>)

  const Initial := Data(None, None)

  /** The texts and image the loaded screen shows. */
  datatype DetailView = DetailView(imageUrl: string, name: string, itemsLine: string, address: string)

  /** The outcome of rendering: nothing, a TypeError thrown by mapping over the
      absent `items` part, or the loaded screen. */
  datatype Rendered = Nothing | Throws | Shown(view: DetailView)

  /** A city and a state code, as the address line shows them. */
  datatype Place = Place(city: string, uf: string)

  /** The argument of the mail composer. */
  datatype MailRequest = MailRequest(subject: string, recipients: seq<string>)

  const Separator := ", "
  const WhatsappPrefix := "whatsapp://send?phone="
  const WhatsappText := "&text=Tenho interesse sobre a coleta de resíduos"
  const MailSubject := "Interesse na coleta de resíduos"

  /** `data.items.map(item => item.title)`. */
  function Titles(items: seq<ItemTitle>): (ts: seq<string>)
    ensures |ts| == |items|
    ensures forall i :: 0 <= i < |items| ==> ts[i] == items[i].title
  {
    if items == [] then [] else [items[0].title] + Titles(items[1..])
  }

  /** `join(', ')`: the titles in order with the separator between adjacent
      ones only. The line is empty for no titles, and otherwise starts with the
      first title; JoinEndsWithLast shows that it ends with the last. */
  function JoinTitles(ts: seq<string>): (line: string)
    ensures ts == [] ==> line == ""
    ensures ts != [] ==> ts[0] <= line
  {
    if |ts| == 0 then ""
    else if |ts| == 1 then ts[0]
    else ts[0] + Separator + JoinTitles(ts[1..])
  }

  /** Cuts a line at every ", ", scanning from the left. Splitting then joining
      restores any line (JoinSplit); joining then splitting restores the titles
      only for a non-empty list with no comma in any title (SplitJoin), since
      for instance the line of no titles splits into [""]. */
  function SplitTitles(line: string): (ts: seq<string>)
    ensures |ts| >= 1
  {
    if line == [] then [""]
    else if |line| >= 2 && line[..2] == Separator then [""] + SplitTitles(line[2..])
    else
      var rest := SplitTitles(line[1..]);
      [[line[0]] + rest[0]] + rest[1..]
  }

  /** The address line `{city}-{uf}`. */
  function Address(city: string, uf: string): (s: string)
    ensures |s| == |city| + 1 + |uf|
    ensures s[..|city|] == city && s[|city|] == '-' && s[|city| + 1..] == uf
  {
    city + "-" + uf
  }

  /** The position of the last '-' of `s`, or -1 when there is none. */
  function LastDash(s: string): (k: int)
    ensures -1 <= k < |s|
    ensures k == -1 ==> '-' !in s
    ensures k >= 0 ==> s[k] == '-' && '-' !in s[k + 1..]
  {
    if s == [] then -1
    else if s[|s| - 1] == '-' then |s| - 1
    else
      assert s == s[..|s| - 1] + [s[|s| - 1]];
      LastDash(s[..|s| - 1])
  }

  /** Reads an address line back, cutting it at its last '-'. */
  function ParseAddress(s: string): (p: Option<Place>)
  {
    var k := LastDash(s);
    if k < 0 then None else Some(Place(s[..k], s[k + 1..]))
  }

  /** The WhatsApp deep link of handleWhatsapp, with the phone inserted
      verbatim. */
  function WhatsappUrl(phone: string): (url: string)
    ensures |url| == |WhatsappPrefix| + |phone| + |WhatsappText|
    ensures url[..|WhatsappPrefix|] == WhatsappPrefix
    ensures url[|WhatsappPrefix|..|WhatsappPrefix| + |phone|] == phone
    ensures url[|WhatsappPrefix| + |phone|..] == WhatsappText
  {
    WhatsappPrefix + phone + WhatsappText
  }

  /** The phone a deep link of that shape carries, if it has that shape. */
  function PhoneOf(url: string): (phone: Option<string>)
  {
    if |url| >= |WhatsappPrefix| + |WhatsappText|
       && url[..|WhatsappPrefix|] == WhatsappPrefix
       && url[|url| - |WhatsappText|..] == WhatsappText
    then Some(url[|WhatsappPrefix|..|url| - |WhatsappText|])
    else None
  }

  /** The request handleComposeMail passes to the mail composer. */
  function ComposeMail(p: PointInfo): (m: MailRequest)
    ensures m.subject == MailSubject
    ensures |m.recipients| == 1 && m.recipients[0] == p.email
  {
    MailRequest(MailSubject, [p.email])
  }

  /** The screen: nothing while `data.point` is absent, otherwise the point's
      image and name, its items line and its address. */
  function Render(d: Data): (r: Rendered)
    ensures r == Nothing <==> d.point.None?
    ensures r == Throws <==> d.point.Some? && d.items.None?
    ensures r.Shown? ==>
      && r.view.imageUrl == d.point.value.imageUrl
      && r.view.name == d.point.value.name
      && r.view.itemsLine == JoinTitles(Titles(d.items.value))
      && r.view.address == Address(d.point.value.city, d.point.value.uf)
  {
    match d.point
    case None => Nothing
    case Some(p) =>
      match d.items
      case None => Throws
      case Some(items) =>
        Shown(DetailView(p.imageUrl, p.name, JoinTitles(Titles(items)), Address(p.city, p.uf)))
  }

  /** Before the fetch resolves the screen renders nothing. */
  lemma RenderInitial()
    ensures Render(Initial) == Nothing
  {
  }

  /** The items line of a concatenation joins the two lines with one
      separator. */
  lemma {:induction false} JoinConcat(a: seq<string>, b: seq<string>)
    requires a != [] && b != []
    ensures JoinTitles(a + b) == JoinTitles(a) + Separator + JoinTitles(b)
  {
    if |a| == 1 {
      assert (a + b)[1..] == b;
    } else {
      assert (a + b)[1..] == a[1..] + b;
      JoinConcat(a[1..], b);
    }
  }

  /** The length of the items line: the titles plus one separator between each
      adjacent pair, so there is no trailing separator and the line of no
      titles is empty. */
  lemma {:induction false} JoinLength(ts: seq<string>)
    ensures |JoinTitles(ts)| == TotalLength(ts) + (if ts == [] then 0 else 2 * (|ts| - 1))
  {
    if |ts| > 1 {
      JoinLength(ts[1..]);
    }
  }

  function TotalLength(ts: seq<string>): nat
  {
    if ts == [] then 0 else |ts[0]| + TotalLength(ts[1..])
  }

  /** The line ends with the last title. */
  lemma {:induction false} JoinEndsWithLast(ts: seq<string>)
    requires ts != []
    ensures |ts[|ts| - 1]| <= |JoinTitles(ts)|
    ensures JoinTitles(ts)[|JoinTitles(ts)| - |ts[|ts| - 1]|..] == ts[|ts| - 1]
  {
    if |ts| >= 2 {
      JoinEndsWithLast(ts[1..]);
    }
  }

  /** The line ends with the last title, preceded by a separator when there
      are several. */
  lemma {:induction false} JoinLast(ts: seq<string>)
    requires |ts| >= 2
    ensures JoinTitles(ts) == JoinTitles(ts[..|ts| - 1]) + Separator + ts[|ts| - 1]
  {
    assert ts == ts[..|ts| - 1] + [ts[|ts| - 1]];
    JoinConcat(ts[..|ts| - 1], [ts[|ts| - 1]]);
  }

  /** Splitting then joining restores any line. */
  lemma {:induction false} JoinSplit(line: string)
    ensures JoinTitles(SplitTitles(line)) == line
  {
    if line == [] {
    } else if |line| >= 2 && line[..2] == Separator {
      JoinSplit(line[2..]);
      JoinEmptyFirst(SplitTitles(line[2..]));
      assert line == Separator + line[2..];
    } else {
      JoinSplit(line[1..]);
      JoinExtendFirst(line[0], SplitTitles(line[1..]));
      assert line == [line[0]] + line[1..];
    }
  }

  lemma {:induction false} JoinEmptyFirst(ts: seq<string>)
    requires ts != []
    ensures JoinTitles([""] + ts) == Separator + JoinTitles(ts)
  {
    assert ([""] + ts)[1..] == ts;
  }

  lemma {:induction false} JoinExtendFirst(c: char, ts: seq<string>)
    requires ts != []
    ensures JoinTitles([[c] + ts[0]] + ts[1..]) == [c] + JoinTitles(ts)
  {
    var us := [[c] + ts[0]] + ts[1..];
    if |ts| == 1 {
      assert us == [[c] + ts[0]];
    } else {
      assert |us| >= 2 && us[0] == [c] + ts[0] && us[1..] == ts[1..];
      var tail := JoinTitles(ts[1..]);
      assert JoinTitles(us) == ([c] + ts[0]) + Separator + tail;
      assert JoinTitles(ts) == ts[0] + Separator + tail;
      assert ([c] + ts[0]) + Separator + tail == [c] + (ts[0] + Separator + tail);
    }
  }

  /** A title without a comma followed by a separator is cut off whole. */
  lemma {:induction false} SplitAfterTitle(t: string, rest: string)
    requires ',' !in t
    ensures SplitTitles(t + Separator + rest) == [t] + SplitTitles(rest)
  {
    if t == [] {
      assert t + Separator + rest == Separator + rest;
      assert (Separator + rest)[2..] == rest;
    } else {
      var line := t + Separator + rest;
      assert line[1..] == t[1..] + Separator + rest;
      assert line[..2] != Separator by { assert line[0] == t[0] != ','; }
      SplitAfterTitle(t[1..], rest);
      assert [t[0]] + t[1..] == t;
    }
  }

  /** A title without a comma is not cut at all. */
  lemma {:induction false} SplitTitle(t: string)
    requires ',' !in t
    ensures SplitTitles(t) == [t]
  {
    if t != [] {
      assert t[0] != ',';
      SplitTitle(t[1..]);
      assert [t[0]] + t[1..] == t;
    }
  }

  /** When no title has a comma, the items line determines the titles: joining
      then splitting restores any non-empty title list. */
  lemma {:induction false} SplitJoin(ts: seq<string>)
    requires ts != []
    requires forall i :: 0 <= i < |ts| ==> ',' !in ts[i]
    ensures SplitTitles(JoinTitles(ts)) == ts
  {
    if |ts| == 1 {
      SplitTitle(ts[0]);
    } else {
      SplitJoin(ts[1..]);
      SplitAfterTitle(ts[0], JoinTitles(ts[1..]));
      assert ts == [ts[0]] + ts[1..];
    }
  }

  /** The address of a state code without '-' reads back as its city and
      state code, whatever the city (city names may hold a '-'). */
  lemma ParseAddressOfAddress(city: string, uf: string)
    requires '-' !in uf
    ensures ParseAddress(Address(city, uf)) == Some(Place(city, uf))
  {
    var s := Address(city, uf);
    assert s == city + "-" + uf;

  }

  /** Whatever an address line reads back as, it is that city and state code
      joined by '-', and the state code holds no '-'. */
  lemma AddressOfParseAddress(s: string)
    requires ParseAddress(s).Some?
    ensures Address(ParseAddress(s).value.city, ParseAddress(s).value.uf) == s
    ensures '-' !in ParseAddress(s).value.uf
  {
    var k := LastDash(s);
    assert s == s[..k] + [s[k]] + s[k + 1..];
  }

  /** The deep link carries the phone verbatim: it reads back unchanged. */
  lemma PhoneOfWhatsappUrl(phone: string)
    ensures PhoneOf(WhatsappUrl(phone)) == Some(phone)
  {
  }

  /** Every link of that shape is the deep link of the phone it carries. */
  lemma WhatsappUrlOfPhone(url: string)
    requires PhoneOf(url).Some?
    ensures WhatsappUrl(PhoneOf(url).value) == url
  {
    var p := |WhatsappPrefix|;
    var q := |url| - |WhatsappText|;
    assert url == url[..p] + url[p..q] + url[q..];
  }

  /** Two different phones give two different links. */
  lemma WhatsappUrlInjective(a: string, b: string)
    requires WhatsappUrl(a) == WhatsappUrl(b)
    ensures a == b
  {
    PhoneOfWhatsappUrl(a);
    PhoneOfWhatsappUrl(b);
  }
}
