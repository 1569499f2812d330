/** The WhatsApp command parser of src/services/whatsappParser.ts: it sorts
    a free-text message into add, query or unknown, pulls the fields of an
    "add" command out of the text, and turns a parsed command into a new
    financial item with defaults. */
module WhatsAppParser {
  import opened Wrappers
  import opened Text
  import opened Seqs
  import opened Domain

  const ADD_HE: string := "הוסף"
  const ADD_HE_PAST: string := "הוסיף"
  const ADD_EN: string := "add"

  const HOW_MUCH: string := "כמה"
  const WHAT: string := "מה"
  const WHEN: string := "מתי"
  const QUESTION_MARK: string := "?"

  /** The fixed distance from the keyword's position to the start of the name. */
  const NAME_OFFSET: nat := 4

  const DEFAULT_NAME: string := "פריט חדש"
  const DEFAULT_INSTITUTION: string := "לא צוין"
  const DEFAULT_PRODUCT_TYPE: string := "כללי"
  const INVALID_COMMAND: string := "Invalid command for creating item"

  /** The known institutions, in the order they are tried. */
  const INSTITUTIONS: seq<string> :=
    ["הראל", "כלל", "מגדל", "הפניקס", "מיטב", "לאומי", "הפועלים", "דיסקונט", "מזרחי"]

  /** A keyword group and the category it stands for; the groups are tried in order. */
  datatype CategoryRule = CategoryRule(keywords: seq<string>, category: string)

  const CATEGORY_RULES: seq<CategoryRule> := [
    CategoryRule(["ביטוח", "insurance"], INSURANCE),
    CategoryRule(["פנסיה", "קרן", "pension"], INVESTMENTS),
    CategoryRule(["חשבון", "בנק", "bank"], FINANCE),
    CategoryRule(["דירה", "נכס", "property"], ASSETS)
  ]

  datatype Action = Add | Query | Unknown

  datatype ParsedCommand = ParsedCommand(
    action: Action,
    category: Option<string>,
    name: Option<string>,
    institution: Option<string>,
    value: Option<real>,
    query: Option<string>)

  // ---------------------------------------------------------------------------
  // Classification

  predicate HasAddKeyword(text: string) {
    Contains(text, ADD_HE) || Contains(text, ADD_HE_PAST) || Contains(text, ADD_EN)
  }

  predicate HasQueryKeyword(text: string) {
    Contains(text, HOW_MUCH) || Contains(text, WHAT) || Contains(text, WHEN) || Contains(text, QUESTION_MARK)
  }

  /** `parseWhatsAppMessage`: the keywords are looked for in the lower-cased,
      trimmed text, add before query; a query keeps the message exactly as it
      came, and an unknown message carries nothing else. */
  function ParseWhatsAppMessage(message: string): (c: ParsedCommand)
    ensures c.action == Query ==> c == ParsedCommand(Query, None, None, None, None, Some(message))
    ensures c.action == Unknown ==> c == ParsedCommand(Unknown, None, None, None, None, None)
    ensures c.action == Add ==> c.query == None
  {
    var text := ToLower(Trim(message));
    if HasAddKeyword(text) then AddCommand(message)
    else if HasQueryKeyword(text) then ParsedCommand(Query, None, None, None, None, Some(message))
    else ParsedCommand(Unknown, None, None, None, None, None)
  }

  /** Which action a message gets: an add keyword makes it an add; failing
      that, a query keyword makes it a query; anything else is unknown. */
  lemma ParseClassification(message: string)
    ensures var text := ToLower(Trim(message));
      && (ParseWhatsAppMessage(message).action == Add <==> HasAddKeyword(text))
      && (ParseWhatsAppMessage(message).action == Query <==> !HasAddKeyword(text) && HasQueryKeyword(text))
  {
  }

  /** The add keywords are looked for before the query keywords, in the
      trimmed, lower-cased text: a message with the add keyword is an add
      command even when it also asks a question or carries white space
      around it. */
  lemma AddBeforeQuery(message: string)
    requires Contains(message, ADD_HE)
    ensures ParseWhatsAppMessage(message).action == Add
  {
    assert NoSpace(ADD_HE) && NoUpper(ADD_HE);
    ContainsTrim(message, ADD_HE);
    ContainsLower(Trim(message), ADD_HE);
    ToLowerNoUpper(ADD_HE);
  }

  /** Classification is case-insensitive but name extraction is not: a
      message whose keyword is only there in another case (`ADD ...`) is an
      add command without a name. */
  lemma UpperCaseAddHasNoName(message: string)
    requires HasAddKeyword(ToLower(Trim(message)))
    requires !Contains(message, ADD_HE) && !Contains(message, ADD_HE_PAST) && !Contains(message, ADD_EN)
    ensures ParseWhatsAppMessage(message).action == Add
    ensures ParseWhatsAppMessage(message).name == None
  {
  }

  // ---------------------------------------------------------------------------
  // Field extraction

  predicate MentionsAny(message: string, keywords: seq<string>) {
    exists k :: 0 <= k < |keywords| && Contains(message, keywords[k])
  }

  /** Position of the first keyword group that the message mentions, or -1. */
  function CategoryRuleIndex(message: string): int
  {
    FindIndex(CATEGORY_RULES, (rule: CategoryRule) => MentionsAny(message, rule.keywords))
  }

  /** The category of the first keyword group the message mentions
      (case-sensitively); unset when it mentions none. */
  function CategoryOf(message: string): (r: Option<string>)
    ensures r.Some? ==> IsItemCategory(r.value)
    ensures r.None? <==> forall j :: 0 <= j < |CATEGORY_RULES| ==> !MentionsAny(message, CATEGORY_RULES[j].keywords)
    ensures r.Some? ==>
      exists k ::
        && 0 <= k < |CATEGORY_RULES|
        && MentionsAny(message, CATEGORY_RULES[k].keywords)
        && r.value == CATEGORY_RULES[k].category
        && forall j :: 0 <= j < k ==> !MentionsAny(message, CATEGORY_RULES[j].keywords)
  {
    var k := CategoryRuleIndex(message);
    if k < 0 then None else Some(CATEGORY_RULES[k].category)
  }

  /** Position in `INSTITUTIONS` of the first name the message contains, or -1. */
  function InstitutionIndex(message: string): (k: int)
    ensures -1 <= k < |INSTITUTIONS|
    ensures k >= 0 ==> Contains(message, INSTITUTIONS[k])
    ensures forall j :: 0 <= j < |INSTITUTIONS| && (k == -1 || j < k) ==> !Contains(message, INSTITUTIONS[j])
  {
    FindIndex(INSTITUTIONS, (inst: string) => Contains(message, inst))
  }

  /** The institution: the first of the list the message contains
      (case-sensitively); unset when it contains none. */
  function InstitutionOf(message: string): (r: Option<string>)
    ensures r.None? <==> forall j :: 0 <= j < |INSTITUTIONS| ==> !Contains(message, INSTITUTIONS[j])
    ensures r.Some? ==>
      exists k ::
        && 0 <= k < |INSTITUTIONS|
        && r.value == INSTITUTIONS[k] && Contains(message, r.value)
        && forall j :: 0 <= j < k ==> !Contains(message, INSTITUTIONS[j])
  {
    var k := InstitutionIndex(message);
    if k < 0 then None else Some(INSTITUTIONS[k])
  }

  /** Characters taken by the repeated `,ddd` groups at the front of `s`. */
  function GroupsRun(s: string): (n: nat)
    ensures n <= |s|
  {
    if |s| >= 4 && s[0] == ',' && IsDigit(s[1]) && IsDigit(s[2]) && IsDigit(s[3]) then 4 + GroupsRun(s[4..]) else 0
  }

  /** Characters taken by an optional `.ddd` fraction at the front of `s`. */
  function FractionRun(s: string): (n: nat)
    ensures n <= |s|
  {
    if |s| >= 2 && s[0] == '.' && IsDigit(s[1]) then 1 + DigitRun(s[1..]) else 0
  }

  /** Where the first match of the value pattern starts: at the first
      digit, or -1 when there is none. */
  function ValueStart(message: string): (k: int)
    ensures -1 <= k < |message|
    ensures k == -1 <==> forall i :: 0 <= i < |message| ==> !IsDigit(message[i])
    ensures k >= 0 ==> IsDigit(message[k])
  {
    FindIndex(message, IsDigit)
  }

  /** The first match of `/(\d+(?:,\d{3})*(?:\.\d+)?)/`: it starts at the
      first digit and takes the longest run of digits, `,ddd` groups and
      fraction there. There is no match exactly when there is no digit
      (`ValueStart` is -1 exactly then). */
  function ValueMatch(message: string): (m: Option<string>)
    ensures m.Some? ==> m.value != [] && IsDigit(m.value[0]) && OccursAt(message, m.value, ValueStart(message))
    ensures m.None? <==> ValueStart(message) == -1
  {
    var start := ValueStart(message);
    if start < 0 then None
    else
      var rest := message[start..];
      assert rest[0] == message[start];
      var m := NumeralAt(rest);
      TakeOfDrop(message, start, |m|);
      Some(m)
  }

  /** The longest run of digits, `,ddd` groups and fraction at the front of
      `rest`, which starts with a digit. */
  function NumeralAt(rest: string): (m: string)
    requires rest != [] && IsDigit(rest[0])
    ensures m != [] && IsDigit(m[0]) && |m| <= |rest| && m == rest[..|m|]
  {
    var d := DigitRun(rest);
    var g := GroupsRun(rest[d..]);
    var f := FractionRun(rest[d + g..]);
    rest[..d + g + f]
  }

  predicate NotComma(c: char) { c != ',' }

  /** `text.replace(/,/g, '')`. */
  function StripCommas(text: string): string
  {
    Filter(text, NotComma)
  }

  /** `parseFloat` of the matched text without its commas. */
  function ValueOf(message: string): (v: Option<real>)
    ensures v.None? <==> ValueMatch(message).None?
    ensures v.Some? ==> v.value >= 0.0 && v == ParseFloat(StripCommas(ValueMatch(message).value))
  {
    match ValueMatch(message)
    case None => None
    case Some(m) =>
      FilterFirst(m, NotComma);
      ParseFloatDigitStart(StripCommas(m));
      ParseFloat(StripCommas(m))
  }

  lemma {:induction false} FilterFirst(s: seq<char>, p: char -> bool)
    requires s != [] && p(s[0])
    ensures Filter(s, p) != [] && Filter(s, p)[0] == s[0]
  {
    if |s| > 1 {
      FilterFirst(s[..|s| - 1], p);
    }
  }

  function Max(a: int, b: int): int { if a >= b then a else b }

  /** `Math.max` of the three keyword positions in the original-case text. */
  function AddIndex(message: string): (k: int)
    ensures k == -1 <==> !Contains(message, ADD_HE) && !Contains(message, ADD_HE_PAST) && !Contains(message, ADD_EN)
  {
    Max(IndexOf(message, ADD_HE), Max(IndexOf(message, ADD_HE_PAST), IndexOf(message, ADD_EN)))
  }

  /** The name starts after the keyword found furthest along: the position
      is the largest of the three first positions, each -1 when its keyword
      is missing. */
  lemma AddIndexIsLatest(message: string)
    ensures var k := AddIndex(message);
      && k >= IndexOf(message, ADD_HE) && k >= IndexOf(message, ADD_HE_PAST) && k >= IndexOf(message, ADD_EN)
      && (k == IndexOf(message, ADD_HE) || k == IndexOf(message, ADD_HE_PAST) || k == IndexOf(message, ADD_EN))
  {
  }

  /** `s.substring(start)`, which yields "" past the end. */
  function SubstringFrom(s: string, start: nat): string
  {
    if start <= |s| then s[start..] else ""
  }

  /** The name: the trimmed text from `NAME_OFFSET` characters after the
      keyword, with the first occurrence of the institution and of the
      matched number cut out, or the default when that leaves nothing. */
  function NameOf(message: string, institution: Option<string>, valueText: Option<string>): (r: Option<string>)
    ensures r.None? <==> AddIndex(message) == -1
    ensures r.Some? ==> r.value != ""
    ensures r.Some? ==>
      var cut := CutFields(Trim(SubstringFrom(message, AddIndex(message) + NAME_OFFSET)), institution, valueText);
      && (cut == "" ==> r.value == DEFAULT_NAME)
      && (cut != "" ==> r.value == cut)
  {
    var k := AddIndex(message);
    if k == -1 then None
    else
      var name := CutFields(Trim(SubstringFrom(message, k + NAME_OFFSET)), institution, valueText);
      Some(if name == "" then DEFAULT_NAME else name)
  }

  /** The text after the keyword with the first occurrence of the
      institution, then of the matched number, cut out, trimming after each
      cut. */
  function CutFields(afterAdd: string, institution: Option<string>, valueText: Option<string>): string
  {
    var withoutInstitution := if institution.Some? then CutOne(afterAdd, institution.value) else afterAdd;
    if valueText.Some? then CutOne(withoutInstitution, valueText.value) else withoutInstitution
  }

  /** The name has no white space at either end, and unless it is the
      default it is made of characters of the text after the keyword; when
      the institution is found there, its characters are taken out too. */
  lemma NameFromTail(message: string, institution: Option<string>, valueText: Option<string>)
    requires AddIndex(message) != -1
    ensures var name := NameOf(message, institution, valueText).value;
      var tail := SubstringFrom(message, AddIndex(message) + NAME_OFFSET);
      && Trimmed(name)
      && (name == DEFAULT_NAME || multiset(name) <= multiset(tail))
      && (name != DEFAULT_NAME && institution.Some? && Contains(Trim(tail), institution.value) ==>
            multiset(name) + multiset(institution.value) <= multiset(tail))
  {
    var tail := SubstringFrom(message, AddIndex(message) + NAME_OFFSET);
    var afterAdd := Trim(tail);
    TrimChars(tail);
    TrimIsTrimmed(tail);
    var cut := CutFields(afterAdd, institution, valueText);
    CutFieldsChars(afterAdd, institution, valueText);
    var name := NameOf(message, institution, valueText).value;
    assert name == if cut == "" then DEFAULT_NAME else cut;
    if cut == "" {
      DefaultNameTrimmed();
    } else {
      assert name == cut;
      assert multiset(name) <= multiset(afterAdd) <= multiset(tail);
    }
  }

  lemma DefaultNameTrimmed()
    ensures Trimmed(DEFAULT_NAME)
  {
    assert DEFAULT_NAME[0] == 'פ' && DEFAULT_NAME[|DEFAULT_NAME| - 1] == 'ש';
  }

  /** The cuts keep the text trimmed and take characters out only. */
  lemma CutFieldsChars(afterAdd: string, institution: Option<string>, valueText: Option<string>)
    requires Trimmed(afterAdd)
    ensures var cut := CutFields(afterAdd, institution, valueText);
      && Trimmed(cut)
      && multiset(cut) <= multiset(afterAdd)
      && (institution.Some? && Contains(afterAdd, institution.value) ==>
            multiset(cut) + multiset(institution.value) <= multiset(afterAdd))
  {
    var w := if institution.Some? then CutOne(afterAdd, institution.value) else afterAdd;
    assert Trimmed(w) && multiset(w) <= multiset(afterAdd) by {
      if institution.Some? {
        CutOneChars(afterAdd, institution.value);
      }
    }
    var cut := if valueText.Some? then CutOne(w, valueText.value) else w;
    assert Trimmed(cut) && multiset(cut) <= multiset(w) by {
      if valueText.Some? {
        CutOneChars(w, valueText.value);
      }
    }
    if institution.Some? && Contains(afterAdd, institution.value) {
      CutOneChars(afterAdd, institution.value);
      Widen(multiset(cut), multiset(w), multiset(institution.value), multiset(afterAdd));
    }
  }

  /** One cut: the first occurrence of `pat` out, then trimmed. */
  function CutOne(s: string, pat: string): string
  {
    Trim(RemoveFirst(s, pat))
  }

  /** A cut leaves a trimmed text and takes characters out only: those of
      `pat` when `s` contains it, none otherwise. */
  lemma CutOneChars(s: string, pat: string)
    ensures var r := CutOne(s, pat);
      && Trimmed(r)
      && multiset(r) <= multiset(s)
      && (Contains(s, pat) ==> multiset(r) + multiset(pat) <= multiset(s))
  {
    var removed := RemoveFirst(s, pat);
    RemoveFirstChars(s, pat);
    TrimChars(removed);
    TrimIsTrimmed(removed);
    CutChars(multiset(Trim(removed)), multiset(removed), multiset(pat), multiset(s), Contains(s, pat));
  }

  lemma CutChars(t: multiset<char>, removed: multiset<char>, pat: multiset<char>, s: multiset<char>, found: bool)
    requires t <= removed
    requires found ==> removed + pat == s
    requires !found ==> removed == s
    ensures t <= s
    ensures found ==> t + pat <= s
  {
  }

  /** No white space at either end. */
  predicate Trimmed(s: string) {
    s == [] || (!IsSpace(s[0]) && !IsSpace(s[|s| - 1]))
  }

  lemma TrimIsTrimmed(s: string)
    ensures Trimmed(Trim(s))
  {
  }

  lemma Widen(a: multiset<char>, b: multiset<char>, p: multiset<char>, c: multiset<char>)
    requires a <= b && b + p <= c
    ensures a + p <= c
  {
  }

  /** A slice of a string uses only characters of that string. */
  lemma SliceChars(s: string, r: string, a: nat)
    requires a + |r| <= |s| && r == s[a..a + |r|]
    ensures multiset(r) <= multiset(s)
  {
    assert s == s[..a] + r + s[a + |r|..];
  }

  lemma TrimChars(s: string)
    ensures multiset(Trim(s)) <= multiset(s)
  {
    SliceChars(s, Trim(s), LeadingSpace(s));
  }

  /** Cutting out the first occurrence of `pat` takes exactly its characters
      out, and nothing when there is none. */
  lemma RemoveFirstChars(s: string, pat: string)
    ensures IndexOf(s, pat) == -1 ==> multiset(RemoveFirst(s, pat)) == multiset(s)
    ensures IndexOf(s, pat) >= 0 ==> multiset(RemoveFirst(s, pat)) + multiset(pat) == multiset(s)
  {
    var r, k := RemoveFirst(s, pat), IndexOf(s, pat);
    if k >= 0 {
      assert r == r[..k] + r[k..];
    }
  }

  /** What `parseAddCommand` returns for a message. */
  function AddCommand(message: string): (c: ParsedCommand)
    ensures c.action == Add && c.query == None
  {
    var institution := InstitutionOf(message);
    ParsedCommand(Add, CategoryOf(message), NameOf(message, institution, ValueMatch(message)),
                  institution, ValueOf(message), None)
  }

  /** `parseAddCommand`: fills the command field by field, trying the
      institutions in list order until one is found in the message. */
  method ParseAddCommand(message: string) returns (c: ParsedCommand)
    ensures c == AddCommand(message)
  {
    c := ParsedCommand(Add, None, None, None, None, None);
    c := c.(category := CategoryOf(message));
    var institution := FindInstitution(message);
    c := c.(institution := institution);
    var valueMatch := ValueMatch(message);
    if valueMatch.Some? {
      c := c.(value := ValueOf(message));
    }
    c := c.(name := NameOf(message, institution, valueMatch));
  }

  /** The loop over the institutions: the first one, in list order, that
      the message contains. */
  method FindInstitution(message: string) returns (institution: Option<string>)
    ensures institution == InstitutionOf(message)
  {
    var i := 0;
    while i < |INSTITUTIONS|
      invariant 0 <= i <= |INSTITUTIONS|
      invariant forall j :: 0 <= j < i ==> !Contains(message, INSTITUTIONS[j])
    {
      if Contains(message, INSTITUTIONS[i]) {
        FirstInstitution(message, i);
        return Some(INSTITUTIONS[i]);
      }
      i := i + 1;
    }
    institution := None;
  }

  /** The institution found is the first one the message contains. */
  lemma FirstInstitution(message: string, i: nat)
    requires i < |INSTITUTIONS| && Contains(message, INSTITUTIONS[i])
    requires forall j :: 0 <= j < i ==> !Contains(message, INSTITUTIONS[j])
    ensures InstitutionIndex(message) == i
  {
  }

  // ---------------------------------------------------------------------------
  // Properties of the extracted fields

  /** The institution is chosen by list order, not by where it stands in the
      text: a listed name anywhere in the message beats every later one. */
  lemma InstitutionByListOrder(message: string, j: nat, k: nat)
    requires j < k < |INSTITUTIONS|
    requires Contains(message, INSTITUTIONS[j])
    ensures InstitutionOf(message) != Some(INSTITUTIONS[k])
  {
    var i := InstitutionIndex(message);
    assert 0 <= i <= j;
    assert forall a, b :: 0 <= a < b < |INSTITUTIONS| ==> INSTITUTIONS[a] != INSTITUTIONS[b] by {
      InstitutionsDistinct();
    }
  }

  lemma InstitutionsDistinct()
    ensures forall a, b :: 0 <= a < b < |INSTITUTIONS| ==> INSTITUTIONS[a] != INSTITUTIONS[b]
  {
    forall a, b | 0 <= a < b < |INSTITUTIONS|
      ensures INSTITUTIONS[a] != INSTITUTIONS[b]
    {
      assert INSTITUTIONS[a][0] != INSTITUTIONS[b][0] || |INSTITUTIONS[a]| != |INSTITUTIONS[b]|
        || INSTITUTIONS[a][1] != INSTITUTIONS[b][1] || INSTITUTIONS[a][2] != INSTITUTIONS[b][2];
    }
  }

  lemma {:induction false} DigitRunOfNumeral(ds: string, post: string)
    requires AllDigits(ds)
    requires post == [] || !IsDigit(post[0])
    ensures DigitRun(ds + post) == |ds|
  {
    if ds != [] {
      assert (ds + post)[1..] == ds[1..] + post;
      DigitRunOfNumeral(ds[1..], post);
    }
  }

  /** A message with one plain number in it (not followed by a digit, a
      comma or a point) yields exactly that number as its value. */
  lemma ValueOfSingleNumber(pre: string, n: nat, post: string)
    requires forall i :: 0 <= i < |pre| ==> !IsDigit(pre[i])
    requires post == [] || !(IsDigit(post[0]) || post[0] == ',' || post[0] == '.')
    ensures ValueMatch(pre + NatToString(n) + post) == Some(NatToString(n))
    ensures ValueOf(pre + NatToString(n) + post) == Some(n as real)
  {
    var ds := NatToString(n);
    MatchOfNumeral(pre, ds, post);
    FilterAll(ds, NotComma);
    ParseFloatNat(n);
  }

  lemma MatchOfNumeral(pre: string, ds: string, post: string)
    requires forall i :: 0 <= i < |pre| ==> !IsDigit(pre[i])
    requires ds != [] && AllDigits(ds)
    requires post == [] || !(IsDigit(post[0]) || post[0] == ',' || post[0] == '.')
    ensures ValueMatch(pre + ds + post) == Some(ds)
  {
    assert pre + ds + post == pre + (ds + post);
    MatchAfterPrefix(pre, ds + post);
    assert GroupsRun(post) == 0;
    assert FractionRun(post[0..]) == 0 by { assert post[0..] == post; }
    NumeralParts(ds, post, 0, 0);
    assert post[..0] == [];
    assert ds + [] == ds;
  }

  /** The match at a run of digits `ds` followed by `tail`: the digits, then
      the groups and fraction `tail` starts with. */
  lemma {:induction false} NumeralParts(ds: string, tail: string, g: nat, f: nat)
    requires ds != [] && AllDigits(ds)
    requires tail == [] || !IsDigit(tail[0])
    requires GroupsRun(tail) == g && FractionRun(tail[g..]) == f
    ensures g + f <= |tail|
    ensures NumeralAt(ds + tail) == ds + tail[..g + f]
  {
    NumeralAfterDigits(ds, tail, g, f);
    TakeAppend(ds, tail, g + f);
  }

  lemma {:induction false} NumeralAfterDigits(ds: string, tail: string, g: nat, f: nat)
    requires ds != [] && AllDigits(ds)
    requires tail == [] || !IsDigit(tail[0])
    requires GroupsRun(tail) == g && FractionRun(tail[g..]) == f
    ensures |ds| + g + f <= |ds + tail|
    ensures NumeralAt(ds + tail) == (ds + tail)[..|ds| + g + f]
  {
    RunsAfterDigits(ds, tail, g, f);
    NumeralAtRuns(ds + tail, |ds|, g, f);
  }

  lemma {:induction false} RunsAfterDigits(ds: string, tail: string, g: nat, f: nat)
    requires ds != [] && AllDigits(ds)
    requires tail == [] || !IsDigit(tail[0])
    requires GroupsRun(tail) == g && FractionRun(tail[g..]) == f
    ensures g + f <= |tail|
    ensures var rest := ds + tail;
      && DigitRun(rest) == |ds|
      && GroupsRun(rest[|ds|..]) == g
      && FractionRun(rest[|ds| + g..]) == f
  {
    var rest := ds + tail;
    DigitRunOfNumeral(ds, tail);
    DropAppend(ds, tail, 0);
    assert tail[0..] == tail;
    DropAppend(ds, tail, g);
  }

  lemma {:induction false} NumeralAtRuns(rest: string, d: nat, g: nat, f: nat)
    requires rest != [] && IsDigit(rest[0])
    requires d == DigitRun(rest) && g == GroupsRun(rest[d..]) && f == FractionRun(rest[d + g..])
    ensures NumeralAt(rest) == rest[..d + g + f]
  {
  }

  /** Text before the first digit does not take part in the match. */
  lemma {:induction false} MatchAfterPrefix(pre: string, rest: string)
    requires forall i :: 0 <= i < |pre| ==> !IsDigit(pre[i])
    requires rest != [] && IsDigit(rest[0])
    ensures ValueMatch(pre + rest) == Some(NumeralAt(rest))
  {
    var message := pre + rest;
    assert message[|pre|] == rest[0];
    assert ValueStart(message) == |pre|;
    assert message[|pre|..] == rest;
  }

  /** A number written with a thousands separator, as in `1,500`, is
      matched with its comma and read without it. */
  lemma {:induction false} ValueOfGroupedNumber(pre: string, ds: string, grp: string, post: string)
    requires forall i :: 0 <= i < |pre| ==> !IsDigit(pre[i])
    requires ds != [] && AllDigits(ds)
    requires |grp| == 3 && AllDigits(grp)
    requires post == [] || !(IsDigit(post[0]) || post[0] == ',' || post[0] == '.')
    ensures ValueMatch(pre + ds + "," + grp + post) == Some(ds + "," + grp)
    ensures ValueOf(pre + ds + "," + grp + post) == Some((1000 * DigitsValue(ds) + DigitsValue(grp)) as real)
  {
    var message := pre + ds + "," + grp + post;
    var m := ds + "," + grp;
    assert ValueMatch(message) == Some(m) by {
      MatchOfGrouped(pre, ds, grp, post);
    }
    assert StripCommas(m) == ds + grp by {
      StripGroupComma(ds, grp);
    }
    GroupedValue(ds, grp);
    var n := DigitsValue(ds + grp);
    assert n as real == (1000 * DigitsValue(ds) + DigitsValue(grp)) as real;
  }

  /** The two shapes of amount a message may carry, after any text without
      digits: "1,500" reads as fifteen hundred, the comma dropped, and "12.5"
      as twelve and a half. */
  lemma AmountExamples(pre: string)
    requires forall i :: 0 <= i < |pre| ==> !IsDigit(pre[i])
    ensures ValueOf(pre + "1,500") == Some(1500.0)
    ensures ValueOf(pre + "12.5") == Some(12.5)
  {
    var one, fiveHundred, twelve, five := "1", "500", "12", "5";
    NumeralPieces();
    Append3(pre, one, ",", fiveHundred);
    ValueOfGroupedNumber(pre, one, fiveHundred, "");
    Append3(pre, twelve, ".", five);
    ValueOfFraction(pre, twelve, five, "");
  }

  /** The pieces of the two example amounts and their digit values. */
  lemma NumeralPieces()
    ensures "1,500" == "1" + "," + "500" && "12.5" == "12" + "." + "5"
    ensures AllDigits("1") && AllDigits("500") && AllDigits("12") && AllDigits("5")
    ensures DigitsValue("1") == 1 && DigitsValue("500") == 500
    ensures DigitsValue("12") == 12 && DigitsValue("5") == 5 && Pow10(|"5"|) == 10
  {
    assert DigitsValue("500"[..2]) == 50;
    assert DigitsValue("12"[..1]) == 1;
  }

  lemma Append3(p: string, a: string, b: string, c: string)
    ensures p + (a + b + c) == p + a + b + c + ""
  {
  }

  lemma ThousandTimes(x: int, p: int)
    requires p == 1000
    ensures x * p == 1000 * x
  {
  }

  lemma {:induction false} StripGroupComma(ds: string, grp: string)
    requires AllDigits(ds) && AllDigits(grp)
    ensures StripCommas(ds + "," + grp) == ds + grp
  {
    assert "," == [','];
    FilterDrop(ds, ',', grp, NotComma);
  }

  /** `ds` thousands and the three digits `grp`. */
  lemma {:induction false} GroupedValue(ds: string, grp: string)
    requires ds != [] && AllDigits(ds)
    requires |grp| == 3 && AllDigits(grp)
    ensures ParseFloat(ds + grp) == Some(DigitsValue(ds + grp) as real)
    ensures DigitsValue(ds + grp) == 1000 * DigitsValue(ds) + DigitsValue(grp)
  {
    ParseDigits(ds + grp);
    DigitsValueAppend(ds, grp);
    assert Pow10(|grp|) == 1000 by {
      assert Pow10(3) == 1000;
    }
    ThousandTimes(DigitsValue(ds), Pow10(|grp|));
  }

  lemma {:induction false} MatchOfGrouped(pre: string, ds: string, grp: string, post: string)
    requires forall i :: 0 <= i < |pre| ==> !IsDigit(pre[i])
    requires ds != [] && AllDigits(ds)
    requires |grp| == 3 && AllDigits(grp)
    requires post == [] || !(IsDigit(post[0]) || post[0] == ',' || post[0] == '.')
    ensures ValueMatch(pre + ds + "," + grp + post) == Some(ds + "," + grp)
  {
    var tail := "," + grp + post;
    GroupTail(grp, post);
    MatchOfTail(pre, ds, tail, 4, 0);
    Regroup(pre, ds, ",", grp, post);
  }

  /** The match after the text before the first digit and the digits. */
  lemma {:induction false} MatchOfTail(pre: string, ds: string, tail: string, g: nat, f: nat)
    requires forall i :: 0 <= i < |pre| ==> !IsDigit(pre[i])
    requires ds != [] && AllDigits(ds)
    requires tail == [] || !IsDigit(tail[0])
    requires GroupsRun(tail) == g && FractionRun(tail[g..]) == f
    ensures g + f <= |tail|
    ensures ValueMatch(pre + (ds + tail)) == Some(ds + tail[..g + f])
  {
    MatchAfterPrefix(pre, ds + tail);
    NumeralParts(ds, tail, g, f);
  }

  lemma {:induction false} GroupTail(grp: string, post: string)
    requires |grp| == 3 && AllDigits(grp)
    requires post == [] || !(IsDigit(post[0]) || post[0] == ',' || post[0] == '.')
    ensures var tail := "," + grp + post;
      && !IsDigit(tail[0])
      && GroupsRun(tail) == 4 && FractionRun(tail[4..]) == 0 && tail[..4] == "," + grp
  {
    var tail := "," + grp + post;
    assert tail[1..4] == grp && tail[4..] == post;
    assert GroupsRun(post) == 0;
  }

  /** A number with a fraction, as in `12.5`, is matched whole and read as
      that decimal. */
  lemma {:induction false} ValueOfFraction(pre: string, ds: string, fs: string, post: string)
    requires forall i :: 0 <= i < |pre| ==> !IsDigit(pre[i])
    requires ds != [] && AllDigits(ds)
    requires fs != [] && AllDigits(fs)
    requires post == [] || !IsDigit(post[0])
    ensures ValueMatch(pre + ds + "." + fs + post) == Some(ds + "." + fs)
    ensures ValueOf(pre + ds + "." + fs + post) == Some(DecimalValue(ds, fs))
  {
    var message := pre + ds + "." + fs + post;
    var m := ds + "." + fs;
    assert ValueMatch(message) == Some(m) by {
      MatchOfFraction(pre, ds, fs, post);
    }
    assert StripCommas(m) == m by {
      FractionHasNoComma(ds, fs);
      FilterAll(m, NotComma);
    }
    ParseFraction(ds, fs);
  }

  lemma FractionHasNoComma(ds: string, fs: string)
    requires AllDigits(ds) && AllDigits(fs)
    ensures forall c :: c in ds + "." + fs ==> NotComma(c)
  {
    forall c | c in ds + "." + fs
      ensures NotComma(c)
    {
      assert c in ds || c == '.' || c in fs;
    }
  }

  lemma {:induction false} ParseFraction(ds: string, fs: string)
    requires ds != [] && AllDigits(ds)
    requires fs != [] && AllDigits(fs)
    ensures ParseFloat(ds + "." + fs) == Some(DecimalValue(ds, fs))
  {
    var m := ds + "." + fs;
    ParseFloatUnsigned(m);
    FractionRuns(ds, fs);
    ParseUnsignedFraction(m, |ds|, |fs|);
    assert fs[..|fs|] == fs;
  }

  lemma {:induction false} FractionRuns(ds: string, fs: string)
    requires ds != [] && AllDigits(ds)
    requires fs != [] && AllDigits(fs)
    ensures var m := ds + "." + fs;
      && DigitRun(m) == |ds| && m[|ds|] == '.' && DigitRun(m[|ds| + 1..]) == |fs|
      && m[..|ds|] == ds && m[|ds| + 1..] == fs
  {
    var m := ds + "." + fs;
    assert m == ds + ("." + fs);
    DigitRunOfNumeral(ds, "." + fs);
    assert m[|ds| + 1..] == fs;
    DigitRunAll(fs);
  }

  lemma {:induction false} MatchOfFraction(pre: string, ds: string, fs: string, post: string)
    requires forall i :: 0 <= i < |pre| ==> !IsDigit(pre[i])
    requires ds != [] && AllDigits(ds)
    requires fs != [] && AllDigits(fs)
    requires post == [] || !IsDigit(post[0])
    ensures ValueMatch(pre + ds + "." + fs + post) == Some(ds + "." + fs)
  {
    var tail := "." + fs + post;
    FractionTail(fs, post);
    MatchOfTail(pre, ds, tail, 0, 1 + |fs|);
    Regroup(pre, ds, ".", fs, post);
  }

  lemma {:induction false} FractionTail(fs: string, post: string)
    requires fs != [] && AllDigits(fs)
    requires post == [] || !IsDigit(post[0])
    ensures var tail := "." + fs + post;
      && !IsDigit(tail[0])
      && GroupsRun(tail) == 0 && FractionRun(tail[0..]) == 1 + |fs| && tail[..1 + |fs|] == "." + fs
  {
    var tail := "." + fs + post;
    assert tail[0..] == tail && tail[1..] == fs + post;
    DigitRunOfNumeral(fs, post);
  }

  /** A message parsed as an add is the add command of that message. */
  lemma ParsedAdd(message: string)
    requires ParseWhatsAppMessage(message).action == Add
    ensures ParseWhatsAppMessage(message) == AddCommand(message)
  {
  }

  const EXAMPLE: string := "הוסף ביטוח רכב הראל 5000"

  /** The worked example of an add command: category, institution and value
      all come out of one line of text. */
  lemma CarInsuranceExample()
    ensures var c := ParseWhatsAppMessage(EXAMPLE);
      && c.action == Add
      && c.category == Some(INSURANCE)
      && c.institution == Some("הראל")
      && c.value == Some(5000.0)
  {
    assert OccursAt(EXAMPLE, ADD_HE, 0) by { assert EXAMPLE[0..4] == ADD_HE; }
    OccursContains(EXAMPLE, ADD_HE, 0);
    AddBeforeQuery(EXAMPLE);
    ParsedAdd(EXAMPLE);
    ExampleCategory();
    ExampleInstitution();
    ExampleValue();
  }

  lemma ExampleCategory()
    ensures CategoryOf(EXAMPLE) == Some(INSURANCE)
  {
    assert OccursAt(EXAMPLE, "ביטוח", 5) by { assert EXAMPLE[5..10] == "ביטוח"; }
    OccursContains(EXAMPLE, "ביטוח", 5);
    assert CATEGORY_RULES[0].keywords[0] == "ביטוח";
    assert MentionsAny(EXAMPLE, CATEGORY_RULES[0].keywords);
  }

  lemma ExampleInstitution()
    ensures InstitutionOf(EXAMPLE) == Some("הראל")
  {
    assert OccursAt(EXAMPLE, "הראל", 15) by { assert EXAMPLE[15..19] == "הראל"; }
    OccursContains(EXAMPLE, "הראל", 15);
  }

  lemma ExampleValue()
    ensures ValueOf(EXAMPLE) == Some(5000.0)
  {
    var pre := "הוסף ביטוח רכב הראל ";
    assert EXAMPLE == pre + NatToString(5000) + "" by {
      assert NatToString(5) == "5";
      assert NatToString(50) == "50";
      assert NatToString(500) == "500";
    }
    ValueOfSingleNumber(pre, 5000, "");
  }

  /** `הוסיף` is five letters long but the name starts four characters after
      it, so when it is the only keyword the name keeps its final letter `ף`. */
  lemma PastTenseKeepsFinalLetter(rest: string)
    requires var m := ADD_HE_PAST + rest; !Contains(m, ADD_HE) && !Contains(m, ADD_EN)
    ensures var name := ParseAddName(ADD_HE_PAST + rest); name.Some? && name.value[0] == 'ף'
  {
    var m := ADD_HE_PAST + rest;
    assert OccursAt(m, ADD_HE_PAST, 0) by {
      assert m[0..5] == ADD_HE_PAST;
    }
    assert AddIndex(m) == 0;
    var after := SubstringFrom(m, NAME_OFFSET);
    assert after[0] == 'ף';
    TrimKeepsFirst(after);
    var t := Trim(after);
    var inst := InstitutionOf(m);
    var n1 := if inst.Some? then Trim(RemoveFirst(t, inst.value)) else t;
    if inst.Some? {
      InstitutionsDoNotStartWithFinalPe();
      RemoveFirstKeepsFirst(t, inst.value);
      TrimKeepsFirst(RemoveFirst(t, inst.value));
    }
    var vm := ValueMatch(m);
    if vm.Some? {
      RemoveFirstKeepsFirst(n1, vm.value);
      TrimKeepsFirst(RemoveFirst(n1, vm.value));
    }
  }

  /** The name `parseAddCommand` extracts. */
  function ParseAddName(message: string): Option<string>
  {
    AddCommand(message).name
  }

  lemma InstitutionsDoNotStartWithFinalPe()
    ensures forall j :: 0 <= j < |INSTITUTIONS| ==> INSTITUTIONS[j] != [] && INSTITUTIONS[j][0] != 'ף'
  {
  }

  lemma TrimKeepsFirst(s: string)
    requires s != [] && !IsSpace(s[0])
    ensures Trim(s) != [] && Trim(s)[0] == s[0]
  {
    assert TrimStart(s) == s;
  }

  lemma RemoveFirstKeepsFirst(s: string, pat: string)
    requires s != [] && pat != [] && pat[0] != s[0]
    ensures RemoveFirst(s, pat) != [] && RemoveFirst(s, pat)[0] == s[0]
  {
  }

  // ---------------------------------------------------------------------------
  // Item creation

  /** The fields of the item `createItemFromCommand` inserts. */
  datatype NewItem = NewItem(
    name: string,
    institution: string,
    productType: string,
    value: real,
    category: string,
    status: string,
    lastUpdated: Day)

  /** The validation and defaults of `createItemFromCommand`: only an add
      command with a category makes an item; a missing or empty name,
      institution or value takes its default, the product type is always the
      general one, and the item is active as of today. */
  function ItemFromCommand(c: ParsedCommand, today: Day): (r: Result<NewItem, string>)
    ensures r.Err? <==> c.action != Add || c.category.None? || c.category.value == ""
    ensures r.Err? ==> r.error == INVALID_COMMAND
    ensures r.Ok? ==>
      && r.value.category == c.category.value
      && r.value.name == (if c.name.Some? && c.name.value != "" then c.name.value else DEFAULT_NAME)
      && r.value.institution == (if c.institution.Some? && c.institution.value != "" then c.institution.value else DEFAULT_INSTITUTION)
      && r.value.value == (if c.value.Some? then c.value.value else 0.0)
      && r.value.productType == DEFAULT_PRODUCT_TYPE
      && r.value.status == ACTIVE
      && r.value.lastUpdated == today
  {
    if c.action != Add || c.category.None? || c.category.value == "" then Err(INVALID_COMMAND)
    else
      Ok(NewItem(
        c.name.GetOr(""),
        c.institution.GetOr(""),
        DEFAULT_PRODUCT_TYPE,
        c.value.GetOr(0.0),
        c.category.value,
        ACTIVE,
        today).(
          name := if c.name.GetOr("") == "" then DEFAULT_NAME else c.name.value,
          institution := if c.institution.GetOr("") == "" then DEFAULT_INSTITUTION else c.institution.value))
  }

  /** `createItemFromCommand`: validation, then the insert, whose outcome (the
      new row's id or the database's error message) is a parameter. */
  function CreateItemFromCommand(c: ParsedCommand, today: Day, insert: Result<string, string>): (r: Result<FinancialItem, string>)
    ensures ItemFromCommand(c, today).Err? ==> r == Err(INVALID_COMMAND)
    ensures ItemFromCommand(c, today).Ok? && insert.Err? ==> r == Err(insert.error)
    ensures r.Ok? ==> insert == Ok(r.value.id) && r.value.expiryDate == None && r.value.subcategory == None
    ensures ItemFromCommand(c, today).Ok? && insert.Ok? ==>
      var item := ItemFromCommand(c, today).value;
      && r.Ok? && r.value.id == insert.value
      && r.value.name == item.name && r.value.institution == item.institution
      && r.value.productType == item.productType && r.value.value == item.value
      && r.value.category == item.category && r.value.status == item.status
      && r.value.lastUpdated == item.lastUpdated
  {
    match ItemFromCommand(c, today)
    case Err(e) => Err(e)
    case Ok(item) =>
      match insert
      case Err(e) => Err(e)
      case Ok(id) =>
        Ok(FinancialItem(id, item.name, item.institution, item.productType, item.value,
                         item.lastUpdated, None, item.status, item.category, None))
  }
}
