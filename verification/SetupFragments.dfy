/**
 The HTML fragments the setup page prints, and the proof that the discovery
 scanner reads back from a page exactly what the printer put into it.
 */
module SetupFragments {
  import opened Prelude
  import opened Text
  import opened Library
  import opened Discovery

  // ---- The printer --------------------------------------------------------------

  function IdentityFragment(metadataName: string, issuer: string, subject: string): string {
    "<meta name=\"" + metadataName + "\" content=\"" + issuer + " " + subject + "\">"
  }

  function LinkFragment(rel: string, href: string): string {
    "<link rel=\"" + rel + "\" href=\"" + href + "\">"
  }

  function DiscoveryFragment(publicUrl: string): string {
    LinkFragment("indieauth-metadata", MetadataUrl(publicUrl)) + "\n" +
    LinkFragment("authorization_endpoint", publicUrl + "/authorize") + "\n" +
    LinkFragment("token_endpoint", publicUrl + "/token")
  }

  // ---- Pages and their hypotheses ---------------------------------------------------

  /** No tag of this kind begins anywhere in `s`. */
  ghost predicate NoneOpens(s: string, word: string) {
    forall i :: 0 <= i < |s| ==> !OpensTag(s[i..], word)
  }

  /** Page text without any meta or link tag. */
  ghost predicate PlainText(s: string) {
    NoneOpens(s, "meta") && NoneOpens(s, "link")
  }

  predicate FieldChar(c: char) {
    !IsSpace(c) && c != '"' && c != '\'' && c != '>' && c != '&'
  }

  /** Free of white space, quotes, `>` and `&`. */
  ghost predicate Field(s: string) {
    forall i :: 0 <= i < |s| ==> FieldChar(s[i])
  }

  /** Unescaping does nothing without an ampersand. */
  ghost predicate UnescapeLaw(lib: Library) {
    forall s :: '&' !in s ==> lib.unescape(s) == s
  }

  // ---- Cutting a page into tags --------------------------------------------------------

  /** A tag that begins inside `x` ends inside `x` when `x` ends with `>`. */
  lemma OpensInside(x: string, y: string, word: string)
    requires x != "" && x[|x| - 1] == '>' && '>' !in word
    requires OpensTag(x + y, word)
    ensures OpensTag(x, word)
    ensures IndexOf(x + y, '>') == IndexOf(x, '>') < |x|
  {
    var s, n := x + y, |word| + 1;
    IndexOfIs(s, '>', IndexOf(x, '>'));
    forall i | 0 <= i <= n
      ensures s[i] != '>'
    {
      if 1 <= i < n {
        assert Lower(s[1..n])[i - 1] == LowerChar(s[i]) == word[i - 1];
      }
    }
    assert s[|x| - 1] == '>';
    assert |x| > n + 1;
    assert x[1..n] == s[1..n];
  }

  lemma OpensLonger(x: string, y: string, word: string)
    ensures OpensTag(x, word) ==> OpensTag(x + y, word)
  {
    if OpensTag(x, word) {
      assert (x + y)[1..|word| + 1] == x[1..|word| + 1];
    }
  }

  lemma TagsInEmpty(word: string)
    ensures TagsIn("", word) == []
  {
  }

  lemma TagsInTag(s: string, word: string)
    requires OpensTag(s, word) && IndexOf(s, '>') < |s|
    ensures var n := IndexOf(s, '>') + 1; TagsIn(s, word) == [s[..n]] + TagsIn(s[n..], word)
  {
  }

  lemma TagsInSkip(s: string, word: string)
    requires s != "" && !OpensTag(s, word)
    ensures TagsIn(s, word) == TagsIn(s[1..], word)
  {
  }

  /** Text ending with `>` and the text after it are scanned independently. */
  lemma {:induction false} TagsAfterClose(x: string, y: string, word: string)
    requires x != "" ==> x[|x| - 1] == '>'
    requires '>' !in word
    ensures TagsIn(x + y, word) == TagsIn(x, word) + TagsIn(y, word)
    decreases |x|
  {
    hide *;
    if x == "" {
      assert x + y == y;
      TagsInEmpty(word);
    } else {
      var s := x + y;
      OpensLonger(x, y, word);
      if OpensTag(s, word) {
        OpensInside(x, y, word);
        TagsInTag(x, word);
        TagsInTag(s, word);
        var n := IndexOf(x, '>') + 1;
        assert s[n..] == x[n..] + y && s[..n] == x[..n];
        TagsAfterClose(x[n..], y, word);
      } else {
        TagsInSkip(x, word);
        TagsInSkip(s, word);
        assert s[1..] == x[1..] + y;
        TagsAfterClose(x[1..], y, word);
      }
    }
  }

  /** A tag that begins before a `<` is opened before it. */
  lemma OpensBefore(x: string, y: string, word: string)
    requires x != "" && (y != "" ==> y[0] == '<') && '<' !in word
    requires OpensTag(x + y, word)
    ensures OpensTag(x, word)
  {
    var s, n := x + y, |word| + 1;
    forall i | 1 <= i <= n
      ensures s[i] != '<'
    {
      if i < n {
        assert Lower(s[1..n])[i - 1] == LowerChar(s[i]) == word[i - 1];
      }
    }
    assert y != "" ==> s[|x|] == '<';
    assert |x| > n;
    assert x[1..n] == s[1..n];
  }

  /** Text in which no tag begins contributes none, also in front of a tag. */
  lemma {:induction false} TagsAfterPlain(x: string, y: string, word: string)
    requires NoneOpens(x, word) && (y != "" ==> y[0] == '<')
    requires '<' !in word
    ensures TagsIn(x + y, word) == TagsIn(y, word)
    decreases |x|
  {
    if x == "" {
      assert x + y == y;
    } else {
      var s := x + y;
      assert x[0..] == x;
      assert !OpensTag(s, word) by {
        if OpensTag(s, word) {
          OpensBefore(x, y, word);
        }
      }
      assert s[1..] == x[1..] + y;
      forall i | 0 <= i < |x[1..]|
        ensures !OpensTag(x[1..][i..], word)
      {
        assert x[1..][i..] == x[i + 1..];
      }
      TagsAfterPlain(x[1..], y, word);
    }
  }

  lemma NoTags(x: string, word: string)
    requires NoneOpens(x, word) && '<' !in word
    ensures TagsIn(x, word) == []
  {
    assert x + "" == x;
    TagsAfterPlain(x, "", word);
  }

  // ---- Reading the attributes of a printed tag ------------------------------------------

  function Quoted(value: string, rest: string): string {
    "=\"" + value + "\"" + rest
  }

  /** The common shape of all printed tags: a word and two quoted attributes. */
  function TwoAttributes(name1: string, value1: string, name2: string, value2: string): string {
    name1 + Quoted(value1, " " + (name2 + Quoted(value2, ">")))
  }

  function PrintedTag(word: string, name1: string, value1: string, name2: string, value2: string): string {
    "<" + (word + " " + TwoAttributes(name1, value1, name2, value2))
  }

  ghost predicate AttributeName(s: string) {
    s != "" && IsNameStart(s[0]) && forall i :: 0 <= i < |s| ==> IsNameChar(s[i])
  }

  /** Characters that cannot start an attribute are passed over. */
  lemma PassOver(lib: Library, c: char, rest: string, found: map<string, string>)
    requires !IsNameStart(c)
    ensures AttributesIn(lib, [c] + rest, found) == AttributesIn(lib, rest, found)
  {
    assert ([c] + rest)[1..] == rest;
  }

  /** So is a word that is followed by a space and then no equals sign. */
  lemma {:induction false} PassWord(lib: Library, word: string, rest: string, found: map<string, string>)
    requires forall i :: 0 <= i < |word| ==> IsNameChar(word[i])
    requires rest != "" && rest[0] != '=' && !IsTagSpace(rest[0])
    ensures AttributesIn(lib, word + " " + rest, found) == AttributesIn(lib, rest, found)
  {
    if word == "" {
      assert word + " " + rest == [' '] + rest;
      PassOver(lib, ' ', rest, found);
    } else {
      var s := word + " " + rest;
      RunLengthIs(s, IsNameChar, |word|);
      assert s[|word|..] == " " + rest;
      RunLengthIs(" " + rest, IsTagSpace, 1);
      assert SkipSpace(s[|word|..]) == rest;
      assert AttributeAt(s) == None;
      assert s[1..] == word[1..] + " " + rest;
      PassWord(lib, word[1..], rest, found);
    }
  }

  lemma PrintedValueAt(value: string, rest: string)
    requires '"' !in value
    ensures var q := Quoted(value, rest);
            && q != "" && q[0] == '=' && |q| == |value| + |rest| + 3
            && q[|q| - |rest|..] == rest && AssignedAt(q) == Some((value, |rest|))
  {
    var v := "\"" + value + "\"" + rest;
    assert Quoted(value, rest)[1..] == v;
    RunLengthIs(v, IsTagSpace, 0);
    assert v[1..] == value + "\"" + rest;
    IndexOfIs(v[1..], '"', |value|);
    assert v[1..][..|value|] == value;
  }

  lemma NamedAttributeAt(name: string, a: string, value: string, left: nat)
    requires AttributeName(name) && a != "" && a[0] == '=' && AssignedAt(a) == Some((value, left))
    ensures AttributeAt(name + a) == Some(Attribute(name, value, |name| + |a| - left))
  {
    var s := name + a;
    RunLengthIs(s, IsNameChar, |name|);
    assert s[|name|..] == a && s[..|name|] == name;
    RunLengthIs(a, IsTagSpace, 0);
    assert SkipSpace(a) == a;
  }

  lemma UseAttribute(lib: Library, s: string, a: Attribute, rest: string, found: map<string, string>)
    requires s != "" && AttributeAt(s) == Some(a) && s[a.length..] == rest
    ensures AttributesIn(lib, s, found) == AttributesIn(lib, rest, found[Lower(a.name) := lib.unescape(a.value)])
  {
  }

  lemma ReadAttribute(lib: Library, name: string, value: string, rest: string, found: map<string, string>)
    requires AttributeName(name) && '"' !in value
    ensures AttributesIn(lib, name + Quoted(value, rest), found)
            == AttributesIn(lib, rest, found[Lower(name) := lib.unescape(value)])
  {
    hide AttributeAt, AssignedAt, AttributesIn, Quoted;
    var q := Quoted(value, rest);
    PrintedValueAt(value, rest);
    NamedAttributeAt(name, q, value, |rest|);
    var a := Attribute(name, value, |name| + |q| - |rest|);
    assert (name + q)[a.length..] == rest;
    UseAttribute(lib, name + q, a, rest, found);
  }

  lemma ReadEnd(lib: Library, found: map<string, string>)
    ensures AttributesIn(lib, "", found) == found
  {
  }

  lemma ReadTwoAttributes(lib: Library, word: string, name1: string, value1: string, name2: string, value2: string)
    requires AttributeName(word) && AttributeName(name1) && AttributeName(name2)
    requires '"' !in value1 && '"' !in value2
    ensures Attributes(lib, PrintedTag(word, name1, value1, name2, value2))
            == map[Lower(name1) := lib.unescape(value1)][Lower(name2) := lib.unescape(value2)]
  {
    hide AttributesIn, AttributeAt, Quoted;
    var last := ">";
    var second := name2 + Quoted(value2, last);
    var first := TwoAttributes(name1, value1, name2, value2);
    var one := map[Lower(name1) := lib.unescape(value1)];
    var two := one[Lower(name2) := lib.unescape(value2)];
    PassOver(lib, '<', word + " " + first, map[]);
    assert first[0] == name1[0];
    PassWord(lib, word, first, map[]);
    ReadAttribute(lib, name1, value1, " " + second, map[]);
    PassOver(lib, ' ', second, one);
    assert [' '] + second == " " + second;
    ReadAttribute(lib, name2, value2, last, one);
    assert last == ['>'] + "";
    PassOver(lib, '>', "", two);
    ReadEnd(lib, two);
  }

  // ---- A printed tag as the tag scanner sees it ------------------------------------------

  lemma IdentityFragmentIsTag(metadataName: string, issuer: string, subject: string)
    ensures IdentityFragment(metadataName, issuer, subject)
            == PrintedTag("meta", "name", metadataName, "content", issuer + " " + subject)
  {
  }

  lemma LinkFragmentIsTag(rel: string, href: string)
    ensures LinkFragment(rel, href) == PrintedTag("link", "rel", rel, "href", href)
  {
  }

  /** Everything a printed tag is made of, flat. */
  lemma PrintedTagFlat(word: string, name1: string, value1: string, name2: string, value2: string)
    ensures PrintedTag(word, name1, value1, name2, value2)
            == ("<" + word + " " + name1 + "=\"" + value1 + "\" " + name2 + "=\"") + value2 + "\">"
  {
  }

  ghost predicate Free(s: string, c: char) {
    forall i :: 0 <= i < |s| ==> s[i] != c
  }

  /** A printed tag is scanned as exactly one tag of its kind. */
  lemma PrintedTagIsOne(word: string, name1: string, value1: string, name2: string, value2: string)
    requires Lower(word) == word
    requires Free(word, '>') && Free(name1, '>') && Free(value1, '>') && Free(name2, '>') && Free(value2, '>')
    ensures var tag := PrintedTag(word, name1, value1, name2, value2);
            tag != "" && tag[0] == '<' && tag[|tag| - 1] == '>' && TagsIn(tag, word) == [tag]
  {
    hide PrintedTag, TwoAttributes, Quoted;
    var tag := PrintedTag(word, name1, value1, name2, value2);
    PrintedTagFlat(word, name1, value1, name2, value2);
    OneClosedTag(tag, word);
  }

  lemma OneClosedTag(tag: string, word: string)
    requires Lower(word) == word
    requires |tag| > |word| + 2 && tag[0] == '<' && tag[1..|word| + 1] == word && tag[|word| + 1] == ' '
    requires tag[|tag| - 1] == '>' && forall i :: 0 <= i < |tag| - 1 ==> tag[i] != '>'
    ensures TagsIn(tag, word) == [tag]
  {
    IndexOfIs(tag, '>', |tag| - 1);
    assert tag[|tag|..] == "" && tag[..|tag|] == tag;
    TagsInTag(tag, word);
    TagsInEmpty(word);
  }

  /** A printed tag of one kind contains no beginning of a tag of another kind. */
  lemma PrintedTagOpensNoOther(word: string, name1: string, value1: string, name2: string, value2: string, other: string)
    requires Lower(word) == word != other && |other| == |word|
    requires Free(word, '<') && Free(name1, '<') && Free(value1, '<') && Free(name2, '<')
    requires forall i :: 0 <= i < |value2| ==> !IsTagSpace(value2[i])
    ensures NoneOpens(PrintedTag(word, name1, value1, name2, value2), other)
  {
    var tag := PrintedTag(word, name1, value1, name2, value2);
    PrintedTagFlat(word, name1, value1, name2, value2);
    var head := "<" + word + " " + name1 + "=\"" + value1 + "\" " + name2 + "=\"";
    assert tag == head + value2 + "\">";
    assert tag[1..|word| + 1] == word;
    assert forall i :: 0 < i < |head| ==> tag[i] != '<';
    assert forall i :: |head| <= i < |tag| ==> !IsTagSpace(tag[i]);
    forall i | 0 <= i < |tag|
      ensures !OpensTag(tag[i..], other)
    {
      var t := tag[i..];
      assert t[0] == tag[i];
      if |t| > |other| + 1 {
        assert t[|other| + 1] == tag[i + |other| + 1];
        assert i == 0 ==> t == tag;
      }
    }
  }

  // ---- Whole pages --------------------------------------------------------------------------

  /** Two fragments with other text before, between and after them. */
  function PageOf(a: string, x: string, b: string, y: string, c: string): string {
    a + (x + (b + (y + c)))
  }

  ghost predicate Closed(x: string) {
    x != "" && x[0] == '<' && x[|x| - 1] == '>'
  }

  lemma TagsOfPage(a: string, x: string, b: string, y: string, c: string, word: string)
    requires NoneOpens(a, word) && NoneOpens(b, word) && NoneOpens(c, word)
    requires Closed(x) && Closed(y) && '<' !in word && '>' !in word
    ensures TagsIn(PageOf(a, x, b, y, c), word) == TagsIn(x, word) + TagsIn(y, word)
  {
    hide NoneOpens, TagsIn;
    TagsAfterPlain(a, x + (b + (y + c)), word);
    TagsAfterClose(x, b + (y + c), word);
    TagsAfterPlain(b, y + c, word);
    TagsAfterClose(y, c, word);
    NoTags(c, word);
  }

  lemma IdentityTag(lib: Library, metadataName: string, issuer: string, subject: string)
    requires UnescapeLaw(lib) && Field(metadataName) && Field(issuer) && Field(subject) && issuer != "" && subject != ""
    ensures var tag := IdentityFragment(metadataName, issuer, subject);
            Closed(tag) && TagsIn(tag, "meta") == [tag] && IdentityValue(lib, tag, metadataName) == issuer + " " + subject
  {
    hide TagsIn, AttributesIn, TwoAttributes, UnescapeLaw;
    var tag, content := IdentityFragment(metadataName, issuer, subject), issuer + " " + subject;
    IdentityFragmentIsTag(metadataName, issuer, subject);
    PrintedTagIsOne("meta", "name", metadataName, "content", content);
    ReadTwoAttributes(lib, "meta", "name", metadataName, "content", content);
    UseUnescape(lib, metadataName);
    UseUnescape(lib, content);
    assert Lower("name") == "name" && Lower("content") == "content";
    TrimNothing(content, IsSpace);
  }

  lemma UseUnescape(lib: Library, s: string)
    requires UnescapeLaw(lib) && '&' !in s
    ensures lib.unescape(s) == s
  {
  }

  lemma LinkTag(rel: string, href: string)
    requires Field(rel) && Field(href) && Free(rel, '<')
    ensures var tag := LinkFragment(rel, href);
            Closed(tag) && TagsIn(tag, "link") == [tag] && TagsIn(tag, "meta") == []
  {
    hide TagsIn, TwoAttributes, NoneOpens;
    LinkFragmentIsTag(rel, href);
    PrintedTagIsOne("link", "rel", rel, "href", href);
    FieldHasNoTagSpace(href);
    PrintedTagOpensNoOther("link", "rel", rel, "href", href, "meta");
    NoTags(LinkFragment(rel, href), "meta");
  }

  lemma FieldHasNoTagSpace(s: string)
    requires Field(s)
    ensures forall i :: 0 <= i < |s| ==> !IsTagSpace(s[i])
  {
    forall i | 0 <= i < |s|
      ensures !IsTagSpace(s[i])
    {
      assert FieldChar(s[i]);
    }
  }

  lemma LinkAttributes(lib: Library, rel: string, href: string)
    requires UnescapeLaw(lib) && Field(rel) && Field(href)
    ensures var attrs := Attributes(lib, LinkFragment(rel, href)); Get(attrs, "rel") == rel && Get(attrs, "href") == href
  {
    hide AttributesIn, TwoAttributes, PrintedTag, LinkFragment, UnescapeLaw;
    LinkFragmentIsTag(rel, href);
    ReadTwoAttributes(lib, "link", "rel", rel, "href", href);
    UseUnescape(lib, rel);
    UseUnescape(lib, href);
    assert Lower("rel") == "rel" && Lower("href") == "href";
  }

  /** What the printed metadata link says: this bridge's metadata document. */
  lemma MetadataLinkDelegates(lib: Library, base: Url, publicUrl: string)
    requires UnescapeLaw(lib) && BridgeUrl(lib, publicUrl)
    ensures DelegatingLink(lib, base, publicUrl, LinkFragment("indieauth-metadata", MetadataUrl(publicUrl)))
  {
    hide Attributes, UnescapeLaw, LinkNamed, LinkFragment, Wanted, Field, MetadataUrl;
    DiscoveryFields(publicUrl);
    LinkAttributes(lib, "indieauth-metadata", MetadataUrl(publicUrl));
    assert BridgeRoot(publicUrl) == publicUrl;
    MetadataLinkNamed(publicUrl);
    MetadataHref(lib, base, publicUrl);
  }

  lemma MetadataHref(lib: Library, base: Url, publicUrl: string)
    requires BridgeUrl(lib, publicUrl)
    ensures LinkTarget(lib, base, TrimSpace(MetadataUrl(publicUrl))) == Some(MetadataUrl(publicUrl))
  {
    TrimNothing(MetadataUrl(publicUrl), IsSpace);
  }

  lemma MetadataLinkNamed(publicUrl: string)
    requires BridgeRoot(publicUrl) == publicUrl
    ensures LinkNamed("indieauth-metadata", MetadataUrl(publicUrl), Wanted(publicUrl))
  {
    hide Fields, BridgeRoot, MetadataUrl, RelContains;
    var rel := "indieauth-metadata";
    SelfRelated(rel);
    assert rel in Wanted(publicUrl) && Wanted(publicUrl)[rel] == MetadataUrl(BridgeRoot(publicUrl));
  }

  lemma SelfRelated(rel: string)
    requires Word(rel)
    ensures RelContains(rel, rel)
  {
    hide Fields;
    OneField(rel);
    assert EqualFold(Fields(rel)[0], rel);
  }

  /**
   The bridge's public URL as validation leaves it, without a final slash, with its metadata URL
   in the normal form of the URL library.
   */
  ghost predicate BridgeUrl(lib: Library, publicUrl: string) {
    && Field(publicUrl)
    && publicUrl != "" && publicUrl[|publicUrl| - 1] != '/'
    && NormalForm(lib, MetadataUrl(publicUrl)) && lib.parse(MetadataUrl(publicUrl)).value.IsAbs()
  }

  lemma FieldAppend(a: string, b: string)
    requires Field(a) && Field(b)
    ensures Field(a + b)
  {
  }

  lemma DiscoveryTags(publicUrl: string)
    requires (hide *; Field(publicUrl))
    ensures var d := DiscoveryFragment(publicUrl);
            && Closed(d) && TagsIn(d, "meta") == []
            && TagsIn(d, "link") != [] && TagsIn(d, "link")[0] == LinkFragment("indieauth-metadata", MetadataUrl(publicUrl))
  {
    hide TagsIn, LinkFragment, NoneOpens, Field;
    var one := LinkFragment("indieauth-metadata", MetadataUrl(publicUrl));
    var two := LinkFragment("authorization_endpoint", publicUrl + "/authorize");
    var three := LinkFragment("token_endpoint", publicUrl + "/token");
    DiscoveryFields(publicUrl);
    LinkTag("indieauth-metadata", MetadataUrl(publicUrl));
    LinkTag("authorization_endpoint", publicUrl + "/authorize");
    LinkTag("token_endpoint", publicUrl + "/token");
    NewlineOpensNothing();
    assert DiscoveryFragment(publicUrl) == PageOf("", one, "\n", two, "\n" + three);
    assert DiscoveryFragment(publicUrl) == one + ("\n" + (two + ("\n" + three)));
    TagsAfterClose(one, "\n" + (two + ("\n" + three)), "link");
    TagsAfterClose(one, "\n" + (two + ("\n" + three)), "meta");
    TagsAfterPlain("\n", two + ("\n" + three), "meta");
    TagsAfterClose(two, "\n" + three, "meta");
    TagsAfterPlain("\n", three, "meta");
  }

  lemma NewlineOpensNothing()
    ensures NoneOpens("\n", "meta")
  {
  }

  lemma DiscoveryFields(publicUrl: string)
    requires Field(publicUrl)
    ensures Field("indieauth-metadata") && Field("authorization_endpoint") && Field("token_endpoint")
    ensures Field(MetadataUrl(publicUrl)) && Field(publicUrl + "/authorize") && Field(publicUrl + "/token")
    ensures Free("indieauth-metadata", '<') && Free("authorization_endpoint", '<') && Free("token_endpoint", '<')
  {
    hide Field;
    LiteralRels();
    LiteralPaths();
    FieldAppend(publicUrl, "/.well-known/oauth-authorization-server");
    FieldAppend(publicUrl, "/authorize");
    FieldAppend(publicUrl, "/token");
  }

  lemma LiteralRels()
    ensures Field("indieauth-metadata") && Field("authorization_endpoint") && Field("token_endpoint")
  {
  }

  lemma LiteralPaths()
    ensures Field("/.well-known/oauth-authorization-server") && Field("/authorize") && Field("/token")
  {
  }

  // ---- The round trip ---------------------------------------------------------------------------

  /** The page text of an owner who pasted both fragments, in either order, around other plain text. */
  function OwnerPage(identityFirst: bool, a: string, b: string, c: string, identity: string, discovery: string): string {
    if identityFirst then PageOf(a, identity, b, discovery, c) else PageOf(a, discovery, b, identity, c)
  }

  /** What the setup page prints is what discovery reads: this identity, delegating to this bridge. */
  lemma SetupRoundTrip(lib: Library, identityFirst: bool, a: string, b: string, c: string, base: Url,
                       metadataName: string, issuer: string, subject: string, publicUrl: string, allowHttp: bool)
    requires UnescapeLaw(lib) && BridgeUrl(lib, publicUrl)
    requires PlainText(a) && PlainText(b) && PlainText(c)
    requires Field(metadataName) && Field(issuer) && Field(subject)
    requires NormalForm(lib, issuer) && ValidateHttpsUrl(lib, issuer, allowHttp).Some?
    requires issuer != "" && subject != "" && ByteLength(subject) <= SUBJECT_LIMIT
    ensures var page := OwnerPage(identityFirst, a, b, c, IdentityFragment(metadataName, issuer, subject), DiscoveryFragment(publicUrl));
            && IdentityMetadata(lib, page, metadataName, allowHttp) == Ok((issuer, subject))
            && PageDelegates(lib, page, base, publicUrl)
  {
    hide TagsIn, NoneOpens, IdentityValue, IdentityOf, DelegatingLink, IdentityFragment, DiscoveryFragment, UnescapeLaw, Field, PageOf;
    var id, disc := IdentityFragment(metadataName, issuer, subject), DiscoveryFragment(publicUrl);
    IdentityTag(lib, metadataName, issuer, subject);
    DiscoveryTags(publicUrl);
    MetadataLinkDelegates(lib, base, publicUrl);
    var link := TagsIn(disc, "link")[0];
    if identityFirst {
      TagsOfPage(a, id, b, disc, c, "meta");
      TagsOfPage(a, id, b, disc, c, "link");
      assert (TagsIn(id, "link") + TagsIn(disc, "link"))[|TagsIn(id, "link")|] == link;
    } else {
      TagsOfPage(a, disc, b, id, c, "meta");
      TagsOfPage(a, disc, b, id, c, "link");
      assert (TagsIn(disc, "link") + TagsIn(id, "link"))[0] == link;
    }
    assert [id] + [] == [id] && [] + [id] == [id];
    OneIdentityValue(lib, id, metadataName, issuer + " " + subject);
    IdentityWords(lib, issuer, subject, allowHttp);
  }

  lemma OneIdentityValue(lib: Library, tag: string, metadataName: string, value: string)
    requires value != "" && IdentityValue(lib, tag, metadataName) == value
    ensures IdentityValues(lib, [tag], metadataName) == [value]
  {
    hide IdentityValue;
    assert [tag][..0] == [];
  }

  lemma IdentityWords(lib: Library, issuer: string, subject: string, allowHttp: bool)
    requires Field(issuer) && Field(subject) && issuer != "" && subject != "" && ByteLength(subject) <= SUBJECT_LIMIT
    requires NormalForm(lib, issuer) && ValidateHttpsUrl(lib, issuer, allowHttp).Some?
    ensures IdentityOf(lib, [issuer + " " + subject], allowHttp) == Ok((issuer, subject))
  {
    hide Fields;
    TwoFields(issuer, subject);
    TrimNothing(subject, IsSpace);
  }

  /** A page with two identity tags of the configured name is rejected, whatever they name. */
  lemma TwoIdentitiesRejected(lib: Library, a: string, b: string, c: string, metadataName: string,
                              issuer1: string, subject1: string, issuer2: string, subject2: string, allowHttp: bool)
    requires UnescapeLaw(lib) && PlainText(a) && PlainText(b) && PlainText(c)
    requires Field(metadataName) && Field(issuer1) && Field(subject1) && Field(issuer2) && Field(subject2)
    requires issuer1 != "" && subject1 != "" && issuer2 != "" && subject2 != ""
    ensures IdentityMetadata(lib, PageOf(a, IdentityFragment(metadataName, issuer1, subject1), b,
                                            IdentityFragment(metadataName, issuer2, subject2), c), metadataName, allowHttp)
            == Err(ManyMetadata)
  {
    hide TagsIn, NoneOpens, IdentityValue, IdentityFragment, UnescapeLaw, Field, PageOf;
    var x, y := IdentityFragment(metadataName, issuer1, subject1), IdentityFragment(metadataName, issuer2, subject2);
    IdentityTag(lib, metadataName, issuer1, subject1);
    IdentityTag(lib, metadataName, issuer2, subject2);
    TagsOfPage(a, x, b, y, c, "meta");
    var tags := [x] + [y];
    assert tags == [x, y] && tags[..1] == [x];
    OneIdentityValue(lib, x, metadataName, issuer1 + " " + subject1);
    assert IdentityValues(lib, tags, metadataName) == [issuer1 + " " + subject1, issuer2 + " " + subject2];
  }

  /** Discovery of a page the owner made from the setup fragments binds `me` to the owner's account. */
  lemma DiscoveryAfterSetup(lib: Library, identityFirst: bool, a: string, b: string, c: string, me: string,
                            metadataName: string, issuer: string, subject: string, publicUrl: string, allowHttp: bool)
    requires UnescapeLaw(lib) && BridgeUrl(lib, publicUrl)
    requires PlainText(a) && PlainText(b) && PlainText(c)
    requires Field(metadataName) && Field(issuer) && Field(subject)
    requires NormalForm(lib, issuer) && ValidateHttpsUrl(lib, issuer, allowHttp).Some?
    requires issuer != "" && subject != "" && ByteLength(subject) <= SUBJECT_LIMIT
    requires NormalForm(lib, me) && ValidateHttpsUrl(lib, me, allowHttp).Some?
    requires var u := lib.parse(me).value; u.fragment == "" && u.path != ""
    ensures var page := OwnerPage(identityFirst, a, b, c, IdentityFragment(metadataName, issuer, subject), DiscoveryFragment(publicUrl));
            ByteLength(page) <= PAGE_LIMIT ==>
              && CanonicalUrl(lib, me).Some?
              && DiscoverIdentity(lib, me, allowHttp, metadataName, publicUrl, issuer, Some(page))
                 == Some(Binding(CanonicalUrl(lib, me).value, issuer, subject))
  {
    hide IdentityMetadata, PageDelegates, UnescapeLaw, PlainText, BridgeUrl, OwnerPage, Field;
    SetupRoundTrip(lib, identityFirst, a, b, c, lib.parse(me).value, metadataName, issuer, subject, publicUrl, allowHttp);
  }

  // ---- Each printed link by itself ------------------------------------------------------------------

  /** The public URL as validation leaves it, with its authorization endpoint in the normal form of the URL library. */
  ghost predicate AuthorizeUrl(lib: Library, publicUrl: string) {
    && Field(publicUrl)
    && publicUrl != "" && publicUrl[|publicUrl| - 1] != '/'
    && NormalForm(lib, publicUrl + "/authorize") && lib.parse(publicUrl + "/authorize").value.IsAbs()
  }

  lemma AuthorizeHref(lib: Library, base: Url, publicUrl: string)
    requires AuthorizeUrl(lib, publicUrl)
    ensures LinkTarget(lib, base, TrimSpace(publicUrl + "/authorize")) == Some(publicUrl + "/authorize")
  {
    TrimNothing(publicUrl + "/authorize", IsSpace);
  }

  lemma AuthorizeLinkNamed(publicUrl: string)
    requires BridgeRoot(publicUrl) == publicUrl
    ensures LinkNamed("authorization_endpoint", publicUrl + "/authorize", Wanted(publicUrl))
  {
    hide Fields, BridgeRoot, MetadataUrl, RelContains;
    var rel := "authorization_endpoint";
    SelfRelated(rel);
    assert rel in Wanted(publicUrl) && Wanted(publicUrl)[rel] == BridgeRoot(publicUrl) + "/authorize";
  }

  /** The link to the authorization endpoint delegates without the one to the metadata document. */
  lemma AuthorizeLinkDelegates(lib: Library, base: Url, publicUrl: string)
    requires UnescapeLaw(lib) && AuthorizeUrl(lib, publicUrl)
    ensures DelegatingLink(lib, base, publicUrl, LinkFragment("authorization_endpoint", publicUrl + "/authorize"))
  {
    hide Attributes, UnescapeLaw, LinkNamed, LinkFragment, Wanted, Field;
    DiscoveryFields(publicUrl);
    LinkAttributes(lib, "authorization_endpoint", publicUrl + "/authorize");
    assert BridgeRoot(publicUrl) == publicUrl;
    AuthorizeLinkNamed(publicUrl);
    AuthorizeHref(lib, base, publicUrl);
  }

  /** A page with the identity and only the link to the authorization endpoint is bound all the same. */
  lemma AuthorizationLinkAlone(lib: Library, a: string, b: string, c: string, me: string, metadataName: string, issuer: string, subject: string,
                               publicUrl: string, allowHttp: bool)
    requires UnescapeLaw(lib) && AuthorizeUrl(lib, publicUrl)
    requires PlainText(a) && PlainText(b) && PlainText(c)
    requires Field(metadataName) && Field(issuer) && Field(subject)
    requires NormalForm(lib, issuer) && ValidateHttpsUrl(lib, issuer, allowHttp).Some?
    requires issuer != "" && subject != "" && ByteLength(subject) <= SUBJECT_LIMIT
    requires NormalForm(lib, me) && ValidateHttpsUrl(lib, me, allowHttp).Some?
    requires var u := lib.parse(me).value; u.fragment == "" && u.path != ""
    ensures var page := PageOf(a, IdentityFragment(metadataName, issuer, subject), b, LinkFragment("authorization_endpoint", publicUrl + "/authorize"), c);
            ByteLength(page) <= PAGE_LIMIT ==>
              && CanonicalUrl(lib, me).Some?
              && DiscoverIdentity(lib, me, allowHttp, metadataName, publicUrl, issuer, Some(page))
                 == Some(Binding(CanonicalUrl(lib, me).value, issuer, subject))
  {
    hide IdentityMetadata, PageDelegates, UnescapeLaw, PlainText, AuthorizeUrl, PageOf, Field, LinkFragment, IdentityFragment;
    var page := PageOf(a, IdentityFragment(metadataName, issuer, subject), b, LinkFragment("authorization_endpoint", publicUrl + "/authorize"), c);
    AuthorizationPageRead(lib, a, b, c, lib.parse(me).value, metadataName, issuer, subject, publicUrl, allowHttp);
  }

  lemma AuthorizationPageRead(lib: Library, a: string, b: string, c: string, base: Url, metadataName: string, issuer: string, subject: string,
                              publicUrl: string, allowHttp: bool)
    requires UnescapeLaw(lib) && AuthorizeUrl(lib, publicUrl)
    requires PlainText(a) && PlainText(b) && PlainText(c)
    requires Field(metadataName) && Field(issuer) && Field(subject)
    requires NormalForm(lib, issuer) && ValidateHttpsUrl(lib, issuer, allowHttp).Some?
    requires issuer != "" && subject != "" && ByteLength(subject) <= SUBJECT_LIMIT
    ensures var page := PageOf(a, IdentityFragment(metadataName, issuer, subject), b, LinkFragment("authorization_endpoint", publicUrl + "/authorize"), c);
            && IdentityMetadata(lib, page, metadataName, allowHttp) == Ok((issuer, subject))
            && PageDelegates(lib, page, base, publicUrl)
  {
    hide TagsIn, PlainText, IdentityMetadata, PageDelegates, DelegatingLink, IdentityFragment, LinkFragment, UnescapeLaw, Field, PageOf,
      IdentityValue;
    DiscoveryFields(publicUrl);
    IdentityTag(lib, metadataName, issuer, subject);
    LinkTag("authorization_endpoint", publicUrl + "/authorize");
    AuthorizeLinkDelegates(lib, base, publicUrl);
    IdentityAndLink(lib, a, IdentityFragment(metadataName, issuer, subject), b, LinkFragment("authorization_endpoint", publicUrl + "/authorize"), c, base,
                    metadataName, issuer, subject, publicUrl, allowHttp);
  }

  /** An identity tag and a delegating link, with plain text around them, are all a page needs. */
  lemma IdentityAndLink(lib: Library, a: string, id: string, b: string, link: string, c: string, base: Url, metadataName: string, issuer: string,
                        subject: string, publicUrl: string, allowHttp: bool)
    requires PlainText(a) && PlainText(b) && PlainText(c)
    requires Closed(id) && TagsIn(id, "meta") == [id] && IdentityValue(lib, id, metadataName) == issuer + " " + subject
    requires Closed(link) && TagsIn(link, "link") == [link] && TagsIn(link, "meta") == [] && DelegatingLink(lib, base, publicUrl, link)
    requires Field(issuer) && Field(subject) && NormalForm(lib, issuer) && ValidateHttpsUrl(lib, issuer, allowHttp).Some?
    requires issuer != "" && subject != "" && ByteLength(subject) <= SUBJECT_LIMIT
    ensures IdentityMetadata(lib, PageOf(a, id, b, link, c), metadataName, allowHttp) == Ok((issuer, subject))
    ensures PageDelegates(lib, PageOf(a, id, b, link, c), base, publicUrl)
  {
    hide TagsIn, NoneOpens, IdentityValue, IdentityOf, DelegatingLink, Field, PageOf, Closed;
    TagsOfPage(a, id, b, link, c, "meta");
    TagsOfPage(a, id, b, link, c, "link");
    assert (TagsIn(id, "link") + [link])[|TagsIn(id, "link")|] == link;
    assert [id] + [] == [id];
    OneIdentityValue(lib, id, metadataName, issuer + " " + subject);
    IdentityWords(lib, issuer, subject, allowHttp);
  }

  /** A link as the attribute scanner reads it. */
  predicate ReadsAs(lib: Library, tag: string, rel: string, href: string) {
    Get(Attributes(lib, tag), "rel") == rel && Get(Attributes(lib, tag), "href") == href
  }

  /** The printed fragment is three links: metadata document, authorization endpoint and token endpoint, each at its own address. */
  lemma FragmentLinks(lib: Library, publicUrl: string)
    requires UnescapeLaw(lib) && Field(publicUrl)
    ensures var tags := TagsIn(DiscoveryFragment(publicUrl), "link");
            && |tags| == 3
            && ReadsAs(lib, tags[0], "indieauth-metadata", publicUrl + "/.well-known/oauth-authorization-server")
            && ReadsAs(lib, tags[1], "authorization_endpoint", publicUrl + "/authorize")
            && ReadsAs(lib, tags[2], "token_endpoint", publicUrl + "/token")
  {
    hide TagsIn, LinkFragment, Field, Closed, ReadsAs, UnescapeLaw, DiscoveryFragment;
    DiscoveryFields(publicUrl);
    OneLink(lib, "indieauth-metadata", MetadataUrl(publicUrl));
    OneLink(lib, "authorization_endpoint", publicUrl + "/authorize");
    OneLink(lib, "token_endpoint", publicUrl + "/token");
    FragmentParts(publicUrl);
    ThreeLinks(LinkFragment("indieauth-metadata", MetadataUrl(publicUrl)), LinkFragment("authorization_endpoint", publicUrl + "/authorize"),
               LinkFragment("token_endpoint", publicUrl + "/token"));
  }

  lemma OneLink(lib: Library, rel: string, href: string)
    requires UnescapeLaw(lib) && Field(rel) && Field(href) && Free(rel, '<')
    ensures var tag := LinkFragment(rel, href); Closed(tag) && TagsIn(tag, "link") == [tag] && ReadsAs(lib, tag, rel, href)
  {
    hide TagsIn, LinkFragment, Field, Attributes, UnescapeLaw, Closed;
    LinkTag(rel, href);
    LinkAttributes(lib, rel, href);
  }

  lemma FragmentParts(publicUrl: string)
    ensures DiscoveryFragment(publicUrl)
            == LinkFragment("indieauth-metadata", MetadataUrl(publicUrl))
               + ("\n" + (LinkFragment("authorization_endpoint", publicUrl + "/authorize") + ("\n" + LinkFragment("token_endpoint", publicUrl + "/token"))))
  {
    hide LinkFragment, MetadataUrl;
  }

  lemma ThreeLinks(one: string, two: string, three: string)
    requires Closed(one) && Closed(two) && Closed(three)
    requires TagsIn(one, "link") == [one] && TagsIn(two, "link") == [two] && TagsIn(three, "link") == [three]
    ensures TagsIn(one + ("\n" + (two + ("\n" + three))), "link") == [one, two, three]
  {
    hide TagsIn, NoneOpens;
    NewlineOpensNoLink();
    TagsAfterClose(one, "\n" + (two + ("\n" + three)), "link");
    TagsAfterPlain("\n", two + ("\n" + three), "link");
    TagsAfterClose(two, "\n" + three, "link");
    TagsAfterPlain("\n", three, "link");
  }

  lemma NewlineOpensNoLink()
    ensures NoneOpens("\n", "link")
  {
  }

  // ---- Other ways to write an attribute ---------------------------------------------------------------

  ghost predicate Spaces(s: string) {
    forall i :: 0 <= i < |s| ==> IsTagSpace(s[i])
  }

  lemma SkipsSpaces(s: string, rest: string)
    requires Spaces(s) && (rest != "" ==> !IsTagSpace(rest[0]))
    ensures SkipSpace(s + rest) == rest
  {
    RunLengthIs(s + rest, IsTagSpace, |s|);
  }

  lemma QuoteAt(quote: char, value: string, rest: string)
    requires (quote == '"' || quote == '\'') && quote !in value
    ensures QuotedAt([quote] + value + [quote] + rest) == Some((value, |rest|))
  {
    var v := [quote] + value + [quote] + rest;
    assert v[1..] == value + [quote] + rest;
    IndexOfIs(v[1..], quote, |value|);
    assert v[1..][..|value|] == value;
  }

  /** Either quote will do, and white space around the equals sign. */
  lemma AnyQuote(lib: Library, name: string, before: string, after: string, quote: char, value: string)
    requires AttributeName(name) && Spaces(before) && Spaces(after) && (quote == '"' || quote == '\'') && quote !in value
    ensures AttributesIn(lib, name + (before + (['='] + (after + ([quote] + value + [quote])))), map[]) == map[Lower(name) := lib.unescape(value)]
  {
    hide AttributesIn, QuotedAt, SkipSpace, IsTagSpace, IsNameChar, IsNameStart, Spaces;
    var q := [quote] + value + [quote];
    var a := ['='] + (after + q);
    var s := name + (before + a);
    QuoteAt(quote, value, "");
    assert [quote] + value + [quote] + "" == q;
    NotSpaces(quote);
    SkipsSpaces(after, q);
    SkipsSpaces(before, a);
    assert a[1..] == after + q;
    SpacedAttribute(name, before, a, value);
    UseAttribute(lib, s, Attribute(name, value, |s|), "", map[]);
    ReadEnd(lib, map[Lower(name) := lib.unescape(value)]);
  }

  lemma NotSpaces(quote: char)
    requires quote == '"' || quote == '\''
    ensures !IsTagSpace(quote) && !IsTagSpace('=')
  {
  }

  lemma SpacedAttribute(name: string, before: string, a: string, value: string)
    requires AttributeName(name) && Spaces(before) && a != "" && a[0] == '=' && SkipSpace(before + a) == a && AssignedAt(a) == Some((value, 0))
    ensures AttributeAt(name + (before + a)) == Some(Attribute(name, value, |name + (before + a)|))
  {
    hide SkipSpace, AssignedAt;
    var s := name + (before + a);
    assert !IsNameChar((before + a)[0]);
    RunLengthIs(s, IsNameChar, |name|);
    assert s[|name|..] == before + a && s[..|name|] == name;
  }
}
