/** Splitting container image names into registry, repository and reference. */
module ImageNames {
  import opened Sequences

  const DEFAULT_TAG := "latest"
  const DEFAULT_REGISTRY := "index.docker.io"

  // ----- str.split and str.join -----

  /** s.split(d) */
  function Split(s: string, d: char): (parts: seq<string>)
    ensures parts != []
  {
    if s == "" then [""]
    else
      var rest := Split(s[1..], d);
      if s[0] == d then [""] + rest else [[s[0]] + rest[0]] + rest[1..]
  }

  /** d.join(parts) */
  function Join(parts: seq<string>, d: char): string
    requires parts != []
  {
    if |parts| == 1 then parts[0] else parts[0] + [d] + Join(parts[1..], d)
  }

  /** s.split(d, 1): one part, or the parts before and after the first d. */
  function SplitOnce(s: string, d: char): (string, string, bool) {
    if s == "" then ("", "", false)
    else if s[0] == d then ("", s[1..], true)
    else
      var (head, tail, found) := SplitOnce(s[1..], d);
      ([s[0]] + head, tail, found)
  }

  lemma {:induction false} SplitOnceAt(head: string, tail: string, d: char)
    requires d !in head
    ensures SplitOnce(head + [d] + tail, d) == (head, tail, true)
  {
    if head == "" {
      assert "" + [d] + tail == [d] + tail;
    } else {
      assert head[0] in head && d !in head[1..];
      assert (head + [d] + tail)[1..] == head[1..] + [d] + tail;
      SplitOnceAt(head[1..], tail, d);
      assert [head[0]] + head[1..] == head;
    }
  }

  lemma {:induction false} SplitOnceNone(s: string, d: char)
    requires d !in s
    ensures SplitOnce(s, d) == (s, "", false)
  {
    if s != "" {
      assert s[0] in s && d !in s[1..] && [s[0]] + s[1..] == s;
      SplitOnceNone(s[1..], d);
    }
  }

  /** A last delimiter followed by `last` splits it off, whatever comes before. */
  lemma {:induction false} SplitLast(s: string, last: string, d: char)
    requires d !in last
    ensures Split(s + [d] + last, d) == Split(s, d) + [last]
  {
    if s == "" {
      assert "" + [d] + last == [d] + last;
      SplitNone(last, d);
    } else {
      assert (s + [d] + last)[1..] == s[1..] + [d] + last;
      SplitLast(s[1..], last, d);
    }
  }

  lemma {:induction false} SplitNone(s: string, d: char)
    requires d !in s
    ensures Split(s, d) == [s]
  {
    if s != "" {
      assert s[0] in s && d !in s[1..] && [s[0]] + s[1..] == s;
      SplitNone(s[1..], d);
    }
  }

  lemma {:induction false} JoinSplit(s: string, d: char)
    ensures Join(Split(s, d), d) == s
  {
    if s != "" {
      JoinSplit(s[1..], d);
      var rest := Split(s[1..], d);
      if s[0] == d {
        assert ([""] + rest)[1..] == rest;
      } else if |rest| > 1 {
        assert ([[s[0]] + rest[0]] + rest[1..])[1..] == rest[1..];
      }
    }
  }

  // ----- The parser -----

  /** Docker.tag */
  function Tag(base: string): (string, string) {
    var parts := Split(base, ':');
    var last := parts[|parts| - 1];
    if |parts| > 1 && '/' !in last then
      (Join(parts[..|parts| - 1], ':'), if last == "" then DEFAULT_TAG else last)
    else
      (base, DEFAULT_TAG)
  }

  /** Docker.reference */
  function Reference(name: string): (string, string) {
    var (head, digest, found) := SplitOnce(name, '@');
    if found then (Tag(head).0, digest) else Tag(name)
  }

  /** Docker.repository */
  function Repository(repo: string): (string, string) {
    var (head, tail, found) := SplitOnce(repo, '/');
    var isRegistry := found && ('.' in head || ':' in head);
    var registry := if isRegistry then head else "";
    (if registry == "" || registry == "docker.io" then DEFAULT_REGISTRY else registry,
     if isRegistry then tail else repo)
  }

  /** Registry, repository path and manifest reference, as `digest` puts them into the manifest URL. */
  datatype Image = Image(registry: string, path: string, reference: string)

  function Parse(name: string): Image {
    var (base, reference) := Reference(name);
    var (registry, path) := Repository(base);
    Image(registry, path, reference)
  }

  // ----- Printing -----

  /** The reference part of an image name. */
  datatype Suffix = Bare | Tagged(tag: string) | Digested(digest: string) | TaggedDigested(tag: string, digest: string)

  function TagText(s: Suffix): string {
    match s
    case Tagged(tag) => ":" + tag
    case TaggedDigested(tag, _) => ":" + tag
    case _ => ""
  }

  function DigestText(s: Suffix): string {
    match s
    case Digested(digest) => "@" + digest
    case TaggedDigested(_, digest) => "@" + digest
    case _ => ""
  }

  /** The digest wins over a tag, and "latest" stands in for neither. */
  function Selects(s: Suffix): string {
    match s
    case Bare => DEFAULT_TAG
    case Tagged(tag) => tag
    case Digested(digest) => digest
    case TaggedDigested(_, digest) => digest
  }

  function Print(registry: string, path: string, s: Suffix): string {
    registry + "/" + path + TagText(s) + DigestText(s)
  }

  predicate IsTag(tag: string) { tag != "" && '/' !in tag && ':' !in tag && '@' !in tag }

  predicate SuffixOk(s: Suffix) {
    match s
    case Tagged(tag) => IsTag(tag)
    case TaggedDigested(tag, _) => IsTag(tag)
    case _ => true
  }

  predicate PathOk(path: string) { path != "" && ':' !in path && '@' !in path }

  /** A registry that is recognised as one. */
  predicate RegistryOk(registry: string) { '/' !in registry && ('.' in registry || ':' in registry) }

  /** docker.io is another name of the default registry. */
  function Canonical(registry: string): string {
    if registry == "docker.io" then DEFAULT_REGISTRY else registry
  }

  function TagOf(s: Suffix): string { if s.Tagged? || s.TaggedDigested? then s.tag else DEFAULT_TAG }

  lemma TagOfTagged(base: string, tag: string)
    requires IsTag(tag)
    ensures Tag(base + [':'] + tag) == (base, tag)
  {
    SplitLast(base, tag, ':');
    var parts := Split(base, ':');
    assert (parts + [tag])[..|parts + [tag]| - 1] == parts;
    JoinSplit(base, ':');
  }

  /** The part after the last colon, if there is a colon, has a slash: it is no tag. */
  predicate Untagged(base: string) { ':' in base ==> '/' in Split(base, ':')[|Split(base, ':')| - 1] }

  lemma TagOfUntagged(base: string)
    requires Untagged(base)
    ensures Tag(base) == (base, DEFAULT_TAG)
  {
    if ':' !in base {
      SplitNone(base, ':');
    }
  }

  /** The tag is found, and nothing else is taken for one: no port, and no part of the path. */
  lemma TagOfName(base: string, s: Suffix)
    requires SuffixOk(s) && Untagged(base)
    ensures Tag(base + TagText(s)) == (base, TagOf(s))
  {
    if s.Tagged? || s.TaggedDigested? {
      Assoc(base, ":", s.tag);
      TagOfTagged(base, s.tag);
    } else {
      assert base + TagText(s) == base;
      TagOfUntagged(base);
    }
  }

  /** The part of a name after its last colon contains the slash that precedes the path. */
  lemma {:induction false} LastPartHasSlash(head: string, tail: string)
    requires ':' !in tail && '/' in tail
    ensures var parts := Split(head + tail, ':'); '/' in parts[|parts| - 1]
  {
    if head == "" {
      assert "" + tail == tail;
      SplitNone(tail, ':');
    } else {
      assert (head + tail)[1..] == head[1..] + tail;
      LastPartHasSlash(head[1..], tail);
    }
  }

  /** A digest is split off at the first '@', and without one the name is all there is. */
  lemma ReferenceOfName(base: string, s: Suffix)
    requires SuffixOk(s) && '@' !in base && Untagged(base)
    ensures Reference(base + TagText(s) + DigestText(s)) == (base, Selects(s))
  {
    var tagged := base + TagText(s);
    assert '@' !in tagged;
    TagOfName(base, s);
    if s.Digested? || s.TaggedDigested? {
      Assoc(tagged, "@", s.digest);
      SplitOnceAt(tagged, s.digest, '@');
    } else {
      assert tagged + DigestText(s) == tagged;
      SplitOnceNone(tagged, '@');
    }
  }

  /**
   Parsing inverts printing: an image name put together from a recognisable registry, a path and a tag
   or digest is taken apart into exactly these, provided no '@' occurs in the registry.
   */
  lemma ParsePrint(registry: string, path: string, s: Suffix)
    requires RegistryOk(registry) && PathOk(path) && SuffixOk(s) && '@' !in registry
    ensures Parse(Print(registry, path, s)) == Image(Canonical(registry), path, Selects(s))
  {
    var base := registry + "/" + path;
    assert base == registry + ("/" + path);
    LastPartHasSlash(registry, "/" + path);
    ReferenceOfName(base, s);
    assert base == registry + ['/'] + path;
    SplitOnceAt(registry, path, '/');
  }

  /** A name without a registry belongs to the default one, and all of it is the path. */
  lemma ParsePlain(path: string, s: Suffix)
    requires PathOk(path) && SuffixOk(s) && ('/' in path ==> '.' !in SplitOnce(path, '/').0)
    ensures Parse(path + TagText(s) + DigestText(s)) == Image(DEFAULT_REGISTRY, path, Selects(s))
  {
    ReferenceOfName(path, s);
    HeadIn(path, '/', ':');
    if '/' !in path {
      SplitOnceNone(path, '/');
    }
  }

  lemma {:induction false} HeadIn(s: string, d: char, c: char)
    requires c !in s
    ensures c !in SplitOnce(s, d).0
  {
    if s != "" && s[0] != d {
      assert c != s[0] && c !in s[1..];
      HeadIn(s[1..], d, c);
    }
  }

  lemma {:induction false} SplitOnceTail(head: string, tail: string, d: char)
    requires d in head
    ensures var (_, rest, found) := SplitOnce(head + tail, d);
            found && |rest| >= |tail| && rest[|rest| - |tail|..] == tail
  {
    assert (head + tail)[0] == head[0];
    assert (head + tail)[1..] == head[1..] + tail;
    if head[0] != d {
      SplitOnceTail(head[1..], tail, d);
    } else {
      assert (head[1..] + tail)[|head[1..]|..] == tail;
    }
  }

  /** What is selected has no slash, or is shorter than the part of the name after the registry. */
  lemma SelectedIsNot(path: string, s: Suffix, reference: string)
    requires SuffixOk(s)
    requires var n := |path| + |TagText(s)| + |DigestText(s)| + 1; |reference| >= n && '/' in reference
    ensures reference != Selects(s)
  {
  }

  /** A name from the slash after its registry on. */
  function Rest(path: string, s: Suffix): string { "/" + path + TagText(s) + DigestText(s) }

  lemma PrintRest(registry: string, path: string, s: Suffix)
    ensures Print(registry, path, s) == registry + Rest(path, s)
  {
    Assoc(registry, "/" + path + TagText(s), DigestText(s));
    Assoc(registry, "/" + path, TagText(s));
    Assoc(registry, "/", path);
  }

  lemma SlashIn(reference: string, path: string, s: Suffix)
    requires var rest := Rest(path, s); |reference| >= |rest| && reference[|reference| - |rest|..] == rest
    ensures '/' in reference
  {
    var rest := Rest(path, s);
    assert rest[0] == '/' && reference[|reference| - |rest|] == reference[|reference| - |rest|..][0];
  }

  /** With an '@' in the registry, the reference takes in the slash after it and all that follows. */
  lemma AtInRegistry(registry: string, path: string, s: Suffix)
    requires '@' in registry && SuffixOk(s)
    ensures Reference(Print(registry, path, s)).1 != Selects(s)
  {
    PrintRest(registry, path, s);
    SplitOnceTail(registry, Rest(path, s), '@');
    var reference := SplitOnce(Print(registry, path, s), '@').1;
    SlashIn(reference, path, s);
    SelectedIsNot(path, s, reference);
  }

  /** The proviso is exact: parsing gives back the parts if and only if the registry has no '@'. */
  lemma ParsePrintExactly(registry: string, path: string, s: Suffix)
    requires RegistryOk(registry) && PathOk(path) && SuffixOk(s)
    ensures Parse(Print(registry, path, s)) == Image(Canonical(registry), path, Selects(s)) <==> '@' !in registry
  {
    if '@' !in registry {
      ParsePrint(registry, path, s);
    } else {
      AtInRegistry(registry, path, s);
    }
  }

  /** A name without a registry, tag or digest, and one whose tag is empty. */
  lemma Defaults(path: string)
    requires '/' !in path && ':' !in path
    ensures Repository(path) == ("index.docker.io", path)
    ensures Tag(path) == (path, "latest") && Tag(path + [':'] + "") == (path, "latest")
  {
    SplitOnceNone(path, '/');
    SplitNone(path, ':');
    SplitLast(path, "", ':');
    assert Join([path, ""][..1], ':') == path;
  }

  /** A dot or a colon in the first part makes it a registry, and nothing else does. */
  lemma RegistryExactly(head: string, tail: string)
    requires '/' !in head
    ensures Repository(head + ['/'] + tail).1 == (if '.' in head || ':' in head then tail else head + ['/'] + tail)
    ensures Repository(head + ['/'] + tail).0 ==
            if ('.' in head || ':' in head) && head != "docker.io" then head else "index.docker.io"
  {
    SplitOnceAt(head, tail, '/');
  }
}
