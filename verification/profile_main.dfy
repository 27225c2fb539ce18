/** The profile overview page: the avatar initial and header name, the colour
    of each menu tile, the labels of the specialisation tags, the list of
    enabled contact methods and the certification preview. The profile and
    the fetched certifications are inputs; the fetches themselves are not
    modelled. */
module ProfileMain {
  import opened Wrappers
  import opened Text
  import opened Seqs
  import opened Dict
  import Auth

  // ---------------------------------------------------------------- header

  /** The header name, `display_name || full_name`; nothing renders (the
      empty string) without a profile. */
  function HeaderName(p: Option<Auth.Profile>): string {
    if p.None? then "" else OptOr(p.value.displayName, p.value.fullName)
  }

  /** `(display_name || full_name || 'U').charAt(0)`. */
  function AvatarInitial(p: Option<Auth.Profile>): (r: string)
    ensures |r| == 1
    ensures p.Some? && p.value.displayName.Some? && p.value.displayName.value != "" ==>
      r == p.value.displayName.value[..1]
    ensures (p.Some? && (p.value.displayName.None? || p.value.displayName.value == "")
             && p.value.fullName != "") ==> r == p.value.fullName[..1]
    ensures (p.None? || ((p.value.displayName.None? || p.value.displayName.value == "")
             && p.value.fullName == "")) ==> r == "U"
  {
    var name := if p.None? then "U" else OrElse(OptOr(p.value.displayName, p.value.fullName), "U");
    [name[0]]
  }

  /** The avatar shows the first letter of the name next to it, and "U" only
      when no name is shown. */
  lemma AvatarMatchesHeader(p: Option<Auth.Profile>)
    ensures HeaderName(p) != "" ==> AvatarInitial(p) == HeaderName(p)[..1]
    ensures HeaderName(p) == "" ==> AvatarInitial(p) == "U"
  {
  }

  // ------------------------------------------------------------ menu tiles

  datatype MenuItem = MenuItem(caption: string, path: string, color: string)

  /** The menu, in display order. */
  const MenuItems: seq<MenuItem> := [
    MenuItem("Edit Profile", "/profile/edit", "purple"),
    MenuItem("Manage Services", "/profile/services", "green"),
    MenuItem("Certifications", "/profile/certifications", "teal"),
    MenuItem("Media Management", "/profile/media", "peach"),
    MenuItem("Settings", "/profile/settings", "lavender")]

  const ColorTable: Dict<string> := [
    Entry("purple", "bg-purple-50 text-purple-600"),
    Entry("teal", "bg-teal-50 text-teal-600"),
    Entry("peach", "bg-peach-50 text-peach-600"),
    Entry("lavender", "bg-lavender-50 text-lavender-600")]

  /** `getColorClasses(color)`: the table's classes for a known colour and
      purple's for any other. */
  function ColorClasses(color: string): (r: string)
    ensures color in Keys(ColorTable) ==> Some(r) == Get(ColorTable, color)
    ensures color !in Keys(ColorTable) ==> r == "bg-purple-50 text-purple-600"
    ensures r in Values(ColorTable)
  {
    assert Values(ColorTable)[0] == "bg-purple-50 text-purple-600";
    var found := Get(ColorTable, color);
    if found.Some? then
      assert found.value in Values(ColorTable) by {
        GetInValues(ColorTable, color);
      }
      found.value
    else "bg-purple-50 text-purple-600"
  }

  /** A value `Get` finds is one of the object's values. */
  lemma {:induction false} GetInValues<V>(d: Dict<V>, k: string)
    requires Get(d, k).Some?
    ensures Get(d, k).value in Values(d)
    decreases |d|
  {
    if d[0].key != k {
      GetInValues(d[1..], k);
      assert Values(d)[1..] == Values(d[1..]);
    } else {
      assert Values(d)[0] == d[0].value;
    }
  }

  /** The "Manage Services" tile asks for green, which the table lacks, so
      it takes purple's classes like "Edit Profile"; the other four tiles
      all look different. */
  lemma MenuColors()
    ensures ColorClasses(MenuItems[1].color) == ColorClasses(MenuItems[0].color)
    ensures forall i, j | 0 <= i < j < |MenuItems| && i != 1 && j != 1 ::
      ColorClasses(MenuItems[i].color) != ColorClasses(MenuItems[j].color)
  {
    ColorLookups();
  }

  lemma ColorLookups()
    ensures "green" !in Keys(ColorTable)
    ensures Get(ColorTable, "purple") == Some("bg-purple-50 text-purple-600")
    ensures Get(ColorTable, "teal") == Some("bg-teal-50 text-teal-600")
    ensures Get(ColorTable, "peach") == Some("bg-peach-50 text-peach-600")
    ensures Get(ColorTable, "lavender") == Some("bg-lavender-50 text-lavender-600")
  {
  }

  // -------------------------------------------------------------- tag labels

  /** `\w` without the `u` flag: ASCII letters, digits and underscore. */
  predicate WordChar(c: char) {
    'a' <= c <= 'z' || 'A' <= c <= 'Z' || '0' <= c <= '9' || c == '_'
  }

  /** A left-to-right scan for `/\b\w/g`: a word character not preceded by a
      word character starts a word and is upper-cased; `afterWord` says
      whether the character before `s` was a word character. */
  function CapitalizeFrom(s: string, afterWord: bool): (r: string)
    ensures |r| == |s|
  {
    if s == [] then []
    else [if WordChar(s[0]) && !afterWord then UpperChar(s[0]) else s[0]]
         + CapitalizeFrom(s[1..], WordChar(s[0]))
  }

  /** `s.replace(/\b\w/g, l => l.toUpperCase())`. */
  function CapitalizeWords(s: string): string {
    CapitalizeFrom(s, false)
  }

  /** Index `i` of `s` starts a word: a word character at the start (when
      no word character precedes `s`) or after a non-word character. */
  predicate StartsWord(s: string, i: int, afterWord: bool)
    requires 0 <= i < |s|
  {
    WordChar(s[i]) && (if i == 0 then !afterWord else !WordChar(s[i - 1]))
  }

  lemma {:induction false} CapitalizeFromAt(s: string, afterWord: bool)
    ensures forall i | 0 <= i < |s| ::
      CapitalizeFrom(s, afterWord)[i] == if StartsWord(s, i, afterWord) then UpperChar(s[i]) else s[i]
    decreases |s|
  {
    if s != [] {
      CapitalizeFromAt(s[1..], WordChar(s[0]));
      var r := CapitalizeFrom(s, afterWord);
      var rest := CapitalizeFrom(s[1..], WordChar(s[0]));
      assert r == [if WordChar(s[0]) && !afterWord then UpperChar(s[0]) else s[0]] + rest;
      forall i | 0 <= i < |s|
        ensures r[i] == if StartsWord(s, i, afterWord) then UpperChar(s[i]) else s[i]
      {
        if i > 0 {
          assert r[i] == rest[i - 1];
          assert s[1..][i - 1] == s[i];
          if i > 1 {
            assert s[1..][i - 2] == s[i - 1];
          }
          assert StartsWord(s, i, afterWord) == StartsWord(s[1..], i - 1, WordChar(s[0]));
        }
      }
    }
  }

  /** The capitalisation changes exactly the characters that start a word,
      each to its upper case, and nothing else. */
  lemma CapitalizeWordsAt(s: string)
    ensures |CapitalizeWords(s)| == |s|
    ensures forall i | 0 <= i < |s| ::
      CapitalizeWords(s)[i] == if StartsWord(s, i, false) then UpperChar(s[i]) else s[i]
  {
    CapitalizeFromAt(s, false);
  }

  /** Capitalising twice changes nothing more. */
  lemma CapitalizeWordsIdempotent(s: string)
    ensures CapitalizeWords(CapitalizeWords(s)) == CapitalizeWords(s)
  {
    var r := CapitalizeWords(s);
    CapitalizeWordsAt(s);
    CapitalizeWordsAt(r);
    assert forall i | 0 <= i < |s| :: WordChar(r[i]) <==> WordChar(s[i]);
  }

  /** The tag label, `tag.replace('-', ' ')` followed by the capitalisation:
      only the first hyphen becomes a space. */
  function TagLabel(tag: string): (r: string)
    ensures |r| == |tag|
  {
    ReplaceFirstLiteral(tag, "-", " ");
    CapitalizeWords(ReplaceFirst(tag, "-", " "))
  }

  /** With `a` the text before the first hyphen, the label is the
      capitalisation of `a`, a space and the rest verbatim. */
  lemma TagLabelFirstHyphen(a: string, b: string)
    requires '-' !in a
    ensures TagLabel(a + "-" + b) == CapitalizeWords(a + " " + b)
  {
    var t := a + "-" + b;
    assert t[|a|..|a| + 1] == "-";
    forall j | 0 <= j < |a| ensures !OccursAt(t, "-", j) {
      assert t[j..j + 1][0] == t[j] == a[j] && a[j] in a;
    }
    ReplaceFirstAt(t, "-", " ", |a|);
    assert t[..|a|] == a && t[|a| + 1..] == b;
  }

  /** A tag without hyphens is only capitalised. */
  lemma TagLabelNoHyphen(tag: string)
    requires '-' !in tag
    ensures TagLabel(tag) == CapitalizeWords(tag)
  {
    MissingCharNotContains(tag, "-", '-');
    ReplaceFirstLiteral(tag, "-", " ");
  }

  /** The tags of the onboarding lists as shown: "farm-animals" reads
      "Farm Animals", but "end-of-life" keeps its second hyphen and reads
      "End Of-Life". */
  lemma TagLabelExamples()
    ensures TagLabel("farm-animals") == "Farm Animals"
    ensures TagLabel("end-of-life") == "End Of-Life"
  {
    FarmAnimalsLabel();
    EndOfLifeLabel();
  }

  lemma FarmAnimalsLabel()
    ensures TagLabel("farm-animals") == "Farm Animals"
  {
    var a, b := "farm", "animals";
    TagLabelFirstHyphen(a, b);
    assert a + "-" + b == "farm-animals";
    CapitalizeFarmAnimals();
  }

  lemma EndOfLifeLabel()
    ensures TagLabel("end-of-life") == "End Of-Life"
  {
    var a, b := "end", "of-life";
    TagLabelFirstHyphen(a, b);
    assert a + "-" + b == "end-of-life";
    CapitalizeEndOfLife();
  }

  lemma CapitalizeFarmAnimals()
    ensures CapitalizeWords("farm" + " " + "animals") == "Farm Animals"
  {
    var s := "farm" + " " + "animals";
    CapitalizeWordsAt(s);
    var r := CapitalizeWords(s);
    assert forall i | 0 <= i < |s| :: r[i] == "Farm Animals"[i];
  }

  lemma CapitalizeEndOfLife()
    ensures CapitalizeWords("end" + " " + "of-life") == "End Of-Life"
  {
    var s := "end" + " " + "of-life";
    CapitalizeWordsAt(s);
    var r := CapitalizeWords(s);
    assert forall i | 0 <= i < |s| :: r[i] == "End Of-Life"[i];
  }

  // --------------------------------------------------------- contact methods

  /** `Object.entries(v)`: an object's own entries, an array's or a string's
      elements under their decimal indices; other values have none. */
  function Entries(v: Auth.Json): (r: seq<Entry<Auth.Json>>)
    ensures v.JObject? ==> r == v.fields
    ensures v.JArray? ==> |r| == |v.items| && forall i | 0 <= i < |r| :: r[i].value == v.items[i]
  {
    match v
    case JObject(fields) => fields
    case JArray(items) => seq(|items|, i requires 0 <= i < |items| => Entry(IntToString(i), items[i]))
    case JString(s) => seq(|s|, i requires 0 <= i < |s| => Entry(IntToString(i), Auth.JString([s[i]])))
    case _ => []
  }

  /** JavaScript truthiness of a JSON value (`NaN` is not a JSON value). */
  predicate Truthy(v: Auth.Json) {
    match v
    case JNull => false
    case JBool(b) => b
    case JNumber(n) => n != 0
    case JString(s) => s != ""
    case _ => true
  }

  function IsEnabled(): Entry<Auth.Json> -> bool {
    (e: Entry<Auth.Json>) => Truthy(e.value)
  }

  const MethodLabels: Dict<string> := [
    Entry("email", "Email"),
    Entry("phone", "Phone Calls"),
    Entry("whatsapp", "WhatsApp"),
    Entry("video", "Video Calls"),
    Entry("inPerson", "In-Person Sessions")]

  /** `methodLabels[method] || method`: the fixed label, else the raw key. */
  function MethodLabel(key: string): (r: string)
    ensures key in Keys(MethodLabels) ==> Some(r) == Get(MethodLabels, key)
    ensures key !in Keys(MethodLabels) ==> r == key
  {
    var found := Get(MethodLabels, key);
    if found.Some? then found.value else key
  }

  /** The labels of the entries with a truthy value, in entry order. */
  function EnabledLabels(es: seq<Entry<Auth.Json>>): (r: seq<string>)
    ensures |r| == Count(es, IsEnabled())
    ensures forall l :: l in r <==> exists e | e in es :: Truthy(e.value) && l == MethodLabel(e.key)
  {
    var on := Filter(es, IsEnabled());
    var r := seq(|on|, i requires 0 <= i < |on| => MethodLabel(on[i].key));
    LabelsOfEnabled(es, on, r);
    r
  }

  lemma LabelsOfEnabled(es: seq<Entry<Auth.Json>>, on: seq<Entry<Auth.Json>>, r: seq<string>)
    requires on == Filter(es, IsEnabled())
    requires |r| == |on| && forall i | 0 <= i < |on| :: r[i] == MethodLabel(on[i].key)
    ensures forall l :: l in r <==> exists e | e in es :: Truthy(e.value) && l == MethodLabel(e.key)
  {
    forall l | l in r ensures exists e | e in es :: Truthy(e.value) && l == MethodLabel(e.key) {
      var i :| 0 <= i < |r| && r[i] == l;
      assert on[i] in on;
    }
    forall e | e in es && Truthy(e.value) ensures MethodLabel(e.key) in r {
      assert IsEnabled()(e);
      assert e in on;
      var i :| 0 <= i < |on| && on[i] == e;
      assert r[i] == MethodLabel(e.key);
    }
  }

  /** The "How Clients Can Reach Me" card: hidden (`None`) unless the stored
      value is truthy and has entries; otherwise the enabled methods'
      labels. */
  function ContactSection(cm: Option<Auth.Json>): (r: Option<seq<string>>)
    ensures r.Some? <==> cm.Some? && Truthy(cm.value) && |Entries(cm.value)| > 0
    ensures r.Some? ==> r.value == EnabledLabels(Entries(cm.value))
  {
    if cm.Some? && Truthy(cm.value) && |Entries(cm.value)| > 0 then Some(EnabledLabels(Entries(cm.value)))
    else None
  }

  /** A profile that passes the completeness check shows the card with at
      least one contact method. */
  lemma CompleteProfileShowsContacts(p: Auth.Profile)
    requires Auth.HasContactMethods(p.contactMethods)
    ensures ContactSection(p.contactMethods).Some?
    ensures |ContactSection(p.contactMethods).value| > 0
  {
    var v := p.contactMethods.value;
    var es := Entries(v);
    var k :| 0 <= k < |Auth.JsonValues(v)| && Auth.JsonValues(v)[k] == Auth.JBool(true);
    assert es[k].value == Auth.JBool(true);
    assert es[k] in es;
    assert MethodLabel(es[k].key) in EnabledLabels(es);
  }

  /** The stored contact map `{email: true, phone: false}` lists email only. */
  lemma ContactSectionExample()
    ensures ContactSection(Some(Auth.JObject([Entry("email", Auth.JBool(true)), Entry("phone", Auth.JBool(false))])))
      == Some(["Email"])
  {
    var es := [Entry("email", Auth.JBool(true)), Entry("phone", Auth.JBool(false))];
    EnabledExample(es);
    assert Entries(Auth.JObject(es)) == es;
  }

  lemma EnabledExample(es: seq<Entry<Auth.Json>>)
    requires es == [Entry("email", Auth.JBool(true)), Entry("phone", Auth.JBool(false))]
    ensures EnabledLabels(es) == ["Email"]
  {
    var r := EnabledLabels(es);
    FilterExample(es);
    assert MethodLabel("email") == "Email" by {
      assert Get(MethodLabels, "email") == Some("Email");
    }
    assert es[0] in es;
    assert "Email" in r;
  }

  lemma FilterExample(es: seq<Entry<Auth.Json>>)
    requires es == [Entry("email", Auth.JBool(true)), Entry("phone", Auth.JBool(false))]
    ensures Count(es, IsEnabled()) == 1
  {
    assert Filter(es[1..], IsEnabled()) == [] by {
      assert es[1..][1..] == [];
      assert !IsEnabled()(es[1..][0]);
    }
    assert IsEnabled()(es[0]);
  }

  // ------------------------------------------------------ certifications

  /** `certifications.slice(0, 2)`: the preview shows the first two. */
  function CertPreview<T>(certs: seq<T>): (r: seq<T>)
    ensures r <= certs
    ensures |r| == if |certs| < 2 then |certs| else 2
  {
    Take(certs, 2)
  }
}
