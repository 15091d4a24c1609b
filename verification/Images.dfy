/**
 Image references: splitting them into registry host, repository and tag, and
 the two rewrites the agent performs on them.
 */
module Images {
  import opened Results
  import opened Text
  import opened Versions

  const DOCKER_HUB_HOST := "registry-1.docker.io"

  // ---- the shape of a reference ---------------------------------------------

  /** Drops everything from the first '@' on. */
  function WithoutDigest(image: string): (r: string)
    ensures r <= image && '@' !in r
  {
    var at := IndexOf(image, '@');
    if at >= 0 then image[..at] else image
  }

  /** Position of the tag separator: a ':' behind the last '/', or -1. */
  function TagColon(image: string): (i: int)
    ensures -1 <= i < |image|
    ensures i >= 0 ==> image[i] == ':' && ':' !in image[i + 1..] && '/' !in image[i + 1..]
  {
    var slash, colon := LastIndexOf(image, '/'), LastIndexOf(image, ':');
    if colon > slash then
      assert slash < 0 || image[colon + 1..] == image[slash + 1..][colon - slash..];
      colon
    else -1
  }

  /** The reference without tag and digest. */
  function NamePart(image: string): (r: string)
    ensures r <= image && '@' !in r
  {
    var named := WithoutDigest(image);
    var colon := TagColon(named);
    if colon >= 0 then named[..colon] else named
  }

  /** The tag of the reference, "" when it carries none. */
  function TagPart(image: string): string
  {
    var named := WithoutDigest(image);
    var colon := TagColon(named);
    if colon >= 0 then named[colon + 1..] else ""
  }

  /** A leading segment that names a registry rather than a repository namespace. */
  predicate LooksLikeHost(segment: string)
  {
    '.' in segment || ':' in segment || segment == "localhost"
  }

  /** Length of the registry segment including its '/', 0 when the reference names none. */
  function HostLength(image: string): (n: nat)
    ensures n <= |image|
    ensures n > 0 ==> n < |image| && image[n - 1] == '/' && '/' !in image[..n - 1] && LooksLikeHost(image[..n - 1])
  {
    var slash := IndexOf(image, '/');
    if slash >= 0 && slash + 1 < |image| && LooksLikeHost(image[..slash]) then slash + 1 else 0
  }

  // ---- parsing (internal/registry) --------------------------------------------

  datatype Ref = Ref(host: string, repo: string, tag: string)

  /** The registry and repository a name stands for: Docker Hub and its library/ are implicit. */
  function Located(name: string, tag: string): Ref
  {
    var n := HostLength(name);
    var written := if n > 0 then name[..n - 1] else DOCKER_HUB_HOST;
    var host := if written == "docker.io" || written == "index.docker.io" then DOCKER_HUB_HOST else written;
    var repo := if host == DOCKER_HUB_HOST && '/' !in name[n..] then "library/" + name[n..] else name[n..];
    Ref(host, repo, tag)
  }

  /** What a reference means to the registry client. */
  function RefOf(image: string): Result<Ref>
  {
    var trimmed := TrimSpace(image);
    if trimmed == "" then Err("image is empty") else Ok(Located(NamePart(trimmed), TagPart(trimmed)))
  }

  lemma LocatedIsComplete(name: string, tag: string)
    ensures Located(name, tag).host != "" && Located(name, tag).repo != ""
  {
    var n := HostLength(name);
    assert n > 0 ==> LooksLikeHost(name[..n - 1]);
    assert !LooksLikeHost("");
  }

  lemma LocatedTag(name: string, tag: string, tag': string)
    ensures Located(name, tag).tag == tag && Located(name, tag') == Located(name, tag).(tag := tag')
  {
  }

  /** The branch for a reference without a repository is never taken: every non-blank image parses. */
  method ParseRef(ref: string) returns (r: Result<Ref>)
    ensures r == RefOf(ref)
    ensures r.Err? <==> TrimSpace(ref) == ""
    ensures r.Ok? ==> r.value.host != "" && r.value.repo != ""
  {
    var image := TrimSpace(ref);
    if image == "" {
      return Err("image is empty");
    }
    var tag;
    image, tag := SplitTag(image);
    LocatedIsComplete(image, tag);
    var host, repo := SplitHost(image);
    if host == "docker.io" || host == "index.docker.io" {
      host := DOCKER_HUB_HOST;
    }
    if host == DOCKER_HUB_HOST && '/' !in repo {
      repo := "library/" + repo;
    }
    if repo == "" {
      return Err("image reference has no repository");
    }
    return Ok(Ref(host, repo, tag));
  }

  /** Cuts the digest, then the tag. */
  method SplitTag(ref: string) returns (image: string, tag: string)
    ensures image == NamePart(ref) && tag == TagPart(ref)
  {
    image, tag := ref, "";
    var at := IndexOf(image, '@');
    if at >= 0 {
      image := image[..at];
    }
    var slash := LastIndexOf(image, '/');
    var colon := LastIndexOf(image, ':');
    if colon > slash {
      tag := image[colon + 1..];
      image := image[..colon];
    }
  }

  /** The host segment and what follows it, or Docker Hub and the whole name. */
  method SplitHost(image: string) returns (host: string, repo: string)
    ensures host == if HostLength(image) > 0 then image[..HostLength(image) - 1] else DOCKER_HUB_HOST
    ensures repo == image[HostLength(image)..]
  {
    var first, rest := image, "";
    var idx := IndexOf(image, '/');
    if idx >= 0 {
      first, rest := image[..idx], image[idx + 1..];
    }
    if rest != "" && ('.' in first || ':' in first || first == "localhost") {
      return first, rest;
    }
    return DOCKER_HUB_HOST, image;
  }

  // ---- rewriting (internal/kube) -----------------------------------------------

  function RetagImage(image: string, newTag: string): Result<string>
  {
    var img, tag := TrimSpace(image), TrimSpace(newTag);
    if img == "" then Err("image is empty")
    else if tag == "" then Err("new tag is empty")
    else
      var name := NamePart(img);
      if name == "" then Err("image reference has no name") else Ok(name + [':'] + tag)
  }

  /** The registry as it is written into the reference. */
  function CleanRegistry(registry: string): string
  {
    TrimSpace(TrimRightChar(registry, '/'))
  }

  function SwapRegistry(image: string, newRegistry: string): Result<string>
  {
    var img, registry := TrimSpace(image), CleanRegistry(newRegistry);
    if img == "" then Err("image is empty")
    else if registry == "" then Err("new_registry is empty")
    else Ok(registry + ['/'] + img[HostLength(img)..])
  }

  // ---- the two parsers agree ---------------------------------------------------

  /** Tags as registries issue them: no reference separators. */
  predicate SeparatorFree(tag: string)
  {
    '/' !in tag && ':' !in tag && '@' !in tag
  }

  lemma TrimmedEnds(a: string, sep: char, b: string)
    requires a != "" && !IsSpace(a[0]) && b != "" && !IsSpace(b[|b| - 1])
    ensures Trimmed(a + [sep] + b) && TrimSpace(a + [sep] + b) == a + [sep] + b
  {
    hide IsSpace, TrimSpace;
    var s := a + [sep] + b;
    assert s[0] == a[0] && s[|s| - 1] == b[|b| - 1];
    TrimSpaceMeaning(s);
  }

  /** A name followed by a separator-free tag parses back into the two. */
  lemma NameAndTag(name: string, tag: string)
    requires '@' !in name && SeparatorFree(tag)
    ensures NamePart(name + [':'] + tag) == name && TagPart(name + [':'] + tag) == tag
  {
    var s := name + [':'] + tag;
    assert '@' !in s;
    assert WithoutDigest(s) == s;
    LastIndexOfSplit(name, ':', tag);
    assert forall j :: |name| < j < |s| ==> s[j] == tag[j - |name| - 1] && s[j] in tag;
    assert LastIndexOf(s, '/') < |name|;
    assert s[..|name|] == name && s[|name| + 1..] == tag;
  }

  lemma RetagIsTrimmed(image: string, newTag: string)
    requires RetagImage(image, newTag).Ok?
    ensures TrimSpace(RetagImage(image, newTag).value) == RetagImage(image, newTag).value
  {
    hide IsSpace, TrimSpace, NamePart;
    var img := TrimSpace(image);
    var name := NamePart(img);
    TrimSpaceMeaning(image);
    TrimSpaceMeaning(newTag);
    assert name[0] == img[0];
    TrimmedEnds(name, ':', TrimSpace(newTag));
  }

  /** A trimmed name and tag read as the two they are written as. */
  lemma ReadsAsWritten(name: string, tag: string)
    requires name != "" && '@' !in name && SeparatorFree(tag) && Trimmed(name + ":" + tag)
    ensures RefOf(name + ":" + tag) == Ok(Located(name, tag))
  {
    hide Located, TrimSpace, Trimmed, NamePart, TagPart;
    TrimSpaceMeaning(name + ":" + tag);
    NameAndTag(name, tag);
  }

  /** A plain name is one of the official images on Docker Hub. */
  lemma ShortReference(name: string, tag: string)
    requires name != "" && '@' !in name && '/' !in name && SeparatorFree(tag) && Trimmed(name + ":" + tag)
    ensures RefOf(name + ":" + tag) == Ok(Ref("registry-1.docker.io", "library/" + name, tag))
  {
    ReadsAsWritten(name, tag);
  }

  /**
   A first segment with a dot, a port, or "localhost" is the registry; any other belongs to a repository on Docker
   Hub.
   */
  lemma QualifiedReference(first: string, rest: string, tag: string)
    requires '/' !in first && first != "" && rest != "" && '@' !in first + rest
    requires SeparatorFree(tag) && Trimmed(first + "/" + rest + ":" + tag)
    ensures var ref := RefOf(first + "/" + rest + ":" + tag);
      if '.' !in first && ':' !in first && first != "localhost"
      then ref == Ok(Ref("registry-1.docker.io", first + "/" + rest, tag))
      else if first == "docker.io" || first == "index.docker.io" || first == "registry-1.docker.io"
      then ref == Ok(Ref("registry-1.docker.io", if '/' in rest then rest else "library/" + rest, tag))
      else ref == Ok(Ref(first, rest, tag))
  {
    hide TrimSpace, Trimmed, HostLength, Located, RefOf, SeparatorFree;
    var name := first + "/" + rest;
    forall c | c in name
      ensures c in first + rest || c == '/'
    {
    }
    ReadsAsWritten(name, tag);
    LocatedAs(first, rest, tag);
  }

  lemma LocatedAs(first: string, rest: string, tag: string)
    requires '/' !in first && first != "" && rest != ""
    ensures var ref := Located(first + "/" + rest, tag);
      if '.' !in first && ':' !in first && first != "localhost"
      then ref == Ref("registry-1.docker.io", first + "/" + rest, tag)
      else if first == "docker.io" || first == "index.docker.io" || first == "registry-1.docker.io"
      then ref == Ref("registry-1.docker.io", if '/' in rest then rest else "library/" + rest, tag)
      else ref == Ref(first, rest, tag)
  {
    hide HostLength, Located;
    var name := first + "/" + rest;
    HostOf(first, rest);
    HostWords();
    if LooksLikeHost(first) {
      LocatedAtHost(first, rest, tag);
    } else {
      assert name[|first|] == '/';
      LocatedAtHub(name, tag);
    }
  }

  lemma LocatedAtHost(first: string, rest: string, tag: string)
    requires HostLength(first + "/" + rest) == |first| + 1
    ensures Located(first + "/" + rest, tag)
         == if first == "docker.io" || first == "index.docker.io" || first == "registry-1.docker.io"
            then Ref("registry-1.docker.io", if '/' in rest then rest else "library/" + rest, tag)
            else Ref(first, rest, tag)
  {
    hide HostLength;
    var name := first + "/" + rest;
    assert name[..|first|] == first && name[|first| + 1..] == rest;
  }

  lemma LocatedAtHub(name: string, tag: string)
    requires HostLength(name) == 0 && '/' in name
    ensures Located(name, tag) == Ref("registry-1.docker.io", name, tag)
  {
    hide HostLength;
    assert name[0..] == name;
  }

  lemma HostOf(first: string, rest: string)
    requires '/' !in first && first != "" && rest != ""
    ensures HostLength(first + "/" + rest) == if LooksLikeHost(first) then |first| + 1 else 0
  {
    var name := first + "/" + rest;
    IndexOfSplit(first, '/', rest);
    assert name[..|first|] == first;
  }

  lemma HostWords()
    ensures '.' in "docker.io" && '.' in "index.docker.io" && '.' in "registry-1.docker.io"
  {
    assert "docker.io"[6] == '.' && "index.docker.io"[5] == '.' && "registry-1.docker.io"[10] == '.';
  }

  /** A retagged image stays in its repository and carries the new tag. */
  lemma RetagKeepsRepository(image: string, tag: string)
    requires SeparatorFree(TrimSpace(tag)) && RetagImage(image, tag).Ok?
    ensures RefOf(image).Ok?
    ensures RefOf(RetagImage(image, tag).value) == Ok(RefOf(image).value.(tag := TrimSpace(tag)))
  {
    hide IsSpace, TrimSpace, NamePart, TagPart, Located, SeparatorFree;
    RetagIsTrimmed(image, tag);
    NameAndTag(NamePart(TrimSpace(image)), TrimSpace(tag));
    LocatedTag(NamePart(TrimSpace(image)), TagPart(TrimSpace(image)), TrimSpace(tag));
  }

  /** What is read back as a tag contains no separator, whatever was appended. */
  lemma TagPartIsSeparatorFree(image: string)
    ensures SeparatorFree(TagPart(image))
  {
    var named := WithoutDigest(image);
    var colon := TagColon(named);
    if colon >= 0 {
      assert forall c :: c in named[colon + 1..] ==> c in named;
    }
  }

  /** The tag read back is the new one exactly when that tag has no separator. */
  lemma RetagTagReadBack(image: string, tag: string)
    requires RetagImage(image, tag).Ok?
    ensures RefOf(RetagImage(image, tag).value).Ok?
    ensures RefOf(RetagImage(image, tag).value).value.tag == TrimSpace(tag) <==> SeparatorFree(TrimSpace(tag))
  {
    hide IsSpace, TrimSpace, NamePart, TagPart, Located, SeparatorFree;
    RetagIsTrimmed(image, tag);
    var retagged := RetagImage(image, tag).value;
    TagPartIsSeparatorFree(retagged);
    LocatedTag(NamePart(retagged), TagPart(retagged), "");
    if SeparatorFree(TrimSpace(tag)) {
      NameAndTag(NamePart(TrimSpace(image)), TrimSpace(tag));
    }
  }

  /** A reference is its name, ':' and tag exactly when it has that tag and no digest. */
  lemma NameColonTag(image: string, tag: string)
    requires SeparatorFree(tag) && tag != ""
    ensures image == NamePart(image) + [':'] + tag <==> '@' !in image && TagPart(image) == tag
  {
    if '@' !in image && TagPart(image) == tag {
      assert WithoutDigest(image) == image;
      var colon := TagColon(image);
      assert image == image[..colon] + [':'] + image[colon + 1..];
    }
    if image == NamePart(image) + [':'] + tag {
      NameAndTag(NamePart(image), tag);
      assert forall c :: c in image ==> c in NamePart(image) || c == ':' || c in tag;
    }
  }

  /** Retagging changes nothing exactly when the undecorated image already carries the tag. */
  lemma RetagIsNoopExactly(image: string, tag: string)
    requires RetagImage(image, tag).Ok? && SeparatorFree(TrimSpace(tag))
    ensures RetagImage(image, tag).value == image
       <==> Trimmed(image) && '@' !in image && TagPart(image) == TrimSpace(tag)
  {
    hide IsSpace, TrimSpace, NamePart, TagPart, SeparatorFree;
    TrimSpaceMeaning(image);
    RetagIsTrimmed(image, tag);
    NameColonTag(TrimSpace(image), TrimSpace(tag));
  }

  /** An image completed by tag discovery stays in its repository and differs from the current one. */
  lemma DiscoveredImageIsNew(current: string, tags: seq<string>, tag: string)
    requires RefOf(current).Ok? && PickedNewest(tags, RefOf(current).value.tag, tag)
    requires tag != "" && Trimmed(tag) && SeparatorFree(tag) && RetagImage(current, tag).Ok?
    ensures RetagImage(current, tag).value != current
    ensures RefOf(RetagImage(current, tag).value) == Ok(RefOf(current).value.(tag := tag))
  {
    hide IsSpace, TrimSpace, NamePart, TagPart, SeparatorFree, Located, RetagImage, PickedNewest, VersionOf;
    TrimSpaceMeaning(tag);
    LocatedTag(NamePart(TrimSpace(current)), TagPart(TrimSpace(current)), tag);
    PickIsUsable(tags, RefOf(current).value.tag, tag);
    RetagKeepsRepository(current, tag);
  }

  lemma PaddedOneIsAVersion()
    ensures VersionOf("1 ") == Some(Version([1], " "))
  {
    var padded := "1 ";
    assert DigitRun(padded) == 1;
    assert NumbersLength(padded) == 1 && padded[..1] == "1" && padded[1..] == " ";
    assert Split("1", '.') == ["1"];
    assert "1"[..0] == "";
    assert DigitsValue("1") == 1;
    assert Atoi("1") == Some(1);
    var parts := ["1"];
    assert parts[..|parts| - 1] == [] && Numbers([]) == Some([]) && parts[|parts| - 1] == "1";
    assert [] + [1 as nat] == [1];
    assert Numbers(parts) == Some([1]);
  }

  lemma TwoIsAVersion()
    ensures VersionOf("2") == Some(Version([2], ""))
  {
    var two := "2";
    assert DigitRun(two) == 1;
    assert NumbersLength(two) == 1 && two[..1] == "2" && two[1..] == "";
    assert Split("2", '.') == ["2"];
    assert "2"[..0] == "";
    assert DigitsValue("2") == 2;
    assert Atoi("2") == Some(2);
    var parts := ["2"];
    assert parts[..|parts| - 1] == [] && Numbers([]) == Some([]) && parts[|parts| - 1] == "2";
    assert [] + [2 as nat] == [2];
    assert Numbers(parts) == Some([2]);
  }

  lemma TrimPaddedOne()
    ensures TrimSpace("1 ") == "1"
  {
    var padded := "1 ";
    assert SkipSpace(padded, 0) == 0 && DropSpace(padded, 0, 2) == 1;
    assert padded[0..1] == "1";
  }

  /** A tag padded with a blank escapes the exclusion of the current tag and reproduces the current image. */
  lemma BlankPaddedTagIsNotNew()
    ensures Candidate("1", "1 ") && TagPart("a:1") == "1"
    ensures RetagImage("a:1", "1 ") == Ok("a:1")
  {
    PaddedOneIsAVersion();
    TrimPaddedOne();
    AOne();
    RetagForm("a:1", "1 ", "a", "1");
    assert "a" + [':'] + "1" == "a:1";
  }

  lemma AOne()
    ensures TrimSpace("a:1") == "a:1" && NamePart("a:1") == "a" && TagPart("a:1") == "1"
  {
    NameAndTag("a", "1");
    assert "a:1" == "a" + [':'] + "1";
    TrimSpaceMeaning("a:1");
  }

  lemma RetagForm(image: string, newTag: string, name: string, tag: string)
    requires TrimSpace(image) != "" && NamePart(TrimSpace(image)) == name != ""
    requires TrimSpace(newTag) == tag != ""
    ensures RetagImage(image, newTag) == Ok(name + [':'] + tag)
  {
  }

  // ---- the rewrites compose ------------------------------------------------------

  /** Where the name of a retagged image ends: at the new ':' unless the tag reopens the reference. */
  lemma RetaggedName(name: string, tag: string)
    requires '@' !in name
    ensures NamePart(name + [':'] + tag) == name
       <==> '/' !in WithoutDigest(tag) && ':' !in WithoutDigest(tag)
    ensures name <= NamePart(name + [':'] + tag)
  {
    var s := name + [':'] + tag;
    var u := WithoutDigest(tag);
    DigestBehindPrefix(name + [':'], tag);
    var named := name + [':'] + u;
    assert WithoutDigest(s) == named;
    assert named[|name|] == ':';
    assert forall j :: |name| < j < |named| ==> named[j] == u[j - |name| - 1];
    if '/' !in u && ':' !in u {
      LastIndexOfSplit(name, ':', u);
      assert LastIndexOf(named, '/') < |name|;
    } else {
      assert exists j :: |name| < j < |named| && (named[j] == '/' || named[j] == ':') by {
        var k :| 0 <= k < |u| && (u[k] == '/' || u[k] == ':');
        assert named[|name| + 1 + k] == u[k];
      }
      assert TagColon(named) != |name|;
      assert |NamePart(s)| != |name|;
    }
  }

  /** A prefix without '@' does not change where the digest starts. */
  lemma DigestBehindPrefix(prefix: string, image: string)
    requires '@' !in prefix
    ensures WithoutDigest(prefix + image) == prefix + WithoutDigest(image)
  {
    var s := prefix + image;
    assert forall j :: 0 <= j < |s| ==> s[j] == if j < |prefix| then prefix[j] else image[j - |prefix|];
    var at := IndexOf(image, '@');
    if at >= 0 {
      assert s[|prefix| + at] == '@';
      assert IndexOf(s, '@') == |prefix| + at;
    } else {
      assert IndexOf(s, '@') < 0;
    }
  }

  lemma SameTagSameName(name1: string, name2: string, tag: string)
    ensures name1 + [':'] + tag == name2 + [':'] + tag <==> name1 == name2
  {
    var s1, s2 := name1 + [':'] + tag, name2 + [':'] + tag;
    assert s1[..|name1|] == name1 && s2[..|name2|] == name2;
    assert |s1| == |s2| ==> |name1| == |name2|;
  }

  /** The last of two retags wins exactly when the first tag opens no new path or tag. */
  lemma RetagTwice(image: string, tag1: string, tag2: string)
    requires RetagImage(image, tag1).Ok? && RetagImage(image, tag2).Ok?
    ensures RetagImage(RetagImage(image, tag1).value, tag2) == RetagImage(image, tag2)
       <==> '/' !in WithoutDigest(TrimSpace(tag1)) && ':' !in WithoutDigest(TrimSpace(tag1))
  {
    var name, t1, t2 := NamePart(TrimSpace(image)), TrimSpace(tag1), TrimSpace(tag2);
    var retagged := RetagImage(image, tag1).value;
    hide IsSpace, TrimSpace, NamePart, WithoutDigest;
    RetagIsTrimmed(image, tag1);
    RetaggedName(name, t1);
    RetagForm(image, tag2, name, t2);
    RetagForm(retagged, tag2, NamePart(retagged), t2);
    SameTagSameName(NamePart(retagged), name, t2);
  }

  /** Separator-free tags never disturb a later retag. */
  lemma RetagTwiceSeparatorFree(image: string, tag1: string, tag2: string)
    requires RetagImage(image, tag1).Ok? && SeparatorFree(TrimSpace(tag1))
    ensures RetagImage(RetagImage(image, tag1).value, tag2) == RetagImage(image, tag2)
  {
    hide IsSpace, TrimSpace, NamePart, TagPart, SeparatorFree;
    RetagIsTrimmed(image, tag1);
    NameAndTag(NamePart(TrimSpace(image)), TrimSpace(tag1));
  }

  /** Names that work as a registry and nothing else. */
  predicate PlainRegistry(registry: string)
  {
    LooksLikeHost(registry) && '/' !in registry
  }

  /** The registry segment of registry/rest is the registry exactly when that one is plain. */
  lemma HostLengthBehind(registry: string, rest: string)
    requires rest != ""
    ensures HostLength(registry + ['/'] + rest) == |registry| + 1 <==> PlainRegistry(registry)
  {
    var s := registry + ['/'] + rest;
    assert s[..|registry|] == registry;
    if '/' !in registry {
      IndexOfSplit(registry, '/', rest);
    }
  }

  lemma SwapIsTrimmed(image: string, registry: string)
    requires SwapRegistry(image, registry).Ok?
    ensures TrimSpace(SwapRegistry(image, registry).value) == SwapRegistry(image, registry).value
    ensures TrimSpace(image)[HostLength(TrimSpace(image))..] != ""
  {
    hide IsSpace, TrimSpace;
    var img := TrimSpace(image);
    var rest := img[HostLength(img)..];
    TrimSpaceMeaning(image);
    TrimSpaceMeaning(TrimRightChar(registry, '/'));
    assert rest[|rest| - 1] == img[|img| - 1];
    TrimmedEnds(CleanRegistry(registry), '/', rest);
  }

  /** What a second swap keeps of a reference of the form registry/rest. */
  lemma SwapBehind(registry: string, rest: string, registry2: string)
    requires rest != "" && Trimmed(registry + ['/'] + rest) && CleanRegistry(registry2) != ""
    ensures SwapRegistry(registry + ['/'] + rest, registry2) == Ok(CleanRegistry(registry2) + ['/'] + rest)
       <==> PlainRegistry(registry)
  {
    hide IsSpace, TrimSpace, CleanRegistry, HostLength;
    var s, r2 := registry + ['/'] + rest, CleanRegistry(registry2);
    TrimSpaceMeaning(s);
    HostLengthBehind(registry, rest);
    assert SwapRegistry(s, registry2) == Ok(r2 + ['/'] + s[HostLength(s)..]);
    if HostLength(s) == |registry| + 1 {
      assert s[HostLength(s)..] == rest;
    } else {
      assert |r2 + ['/'] + s[HostLength(s)..]| != |r2 + ['/'] + rest|;
    }
  }

  /** The last of two registry swaps wins exactly when the first registry is a plain host. */
  lemma SwapTwice(image: string, registry1: string, registry2: string)
    requires SwapRegistry(image, registry1).Ok? && SwapRegistry(image, registry2).Ok?
    ensures SwapRegistry(SwapRegistry(image, registry1).value, registry2) == SwapRegistry(image, registry2)
       <==> PlainRegistry(CleanRegistry(registry1))
  {
    hide IsSpace, TrimSpace, CleanRegistry, PlainRegistry;
    SwapIsTrimmed(image, registry1);
    TrimSpaceMeaning(SwapRegistry(image, registry1).value);
    var img := TrimSpace(image);
    SwapBehind(CleanRegistry(registry1), img[HostLength(img)..], registry2);
  }

  /** Swapping a registry away and back restores the reference. */
  lemma SwapBack(host: string, rest: string, registry: string)
    requires PlainRegistry(host) && host != "" && rest != "" && Trimmed(host) && Trimmed(host + ['/'] + rest)
    requires PlainRegistry(CleanRegistry(registry))
    ensures SwapRegistry(host + ['/'] + rest, registry).Ok?
    ensures SwapRegistry(SwapRegistry(host + ['/'] + rest, registry).value, host) == Ok(host + ['/'] + rest)
  {
    var image := host + ['/'] + rest;
    hide IsSpace, TrimSpace, HostLength;
    TrimRightCharMeaning(host, '/');
    TrimSpaceMeaning(host);
    TrimSpaceMeaning(image);
    assert CleanRegistry(host) == host;
    SwapBehind(host, rest, host);
    assert !LooksLikeHost("");
    SwapTwice(image, registry, host);
  }

  /** A ':' behind the last '/' of the rest is also behind the last '/' of prefix/rest, and conversely. */
  lemma PrefixKeepsColon(prefix: string, rest: string)
    requires prefix != "" && prefix[|prefix| - 1] == '/'
    ensures TagColon(prefix + rest) == if TagColon(rest) >= 0 then |prefix| + TagColon(rest) else -1
  {
    var s := prefix + rest;
    assert s[|prefix| - 1] == '/';
    assert forall j :: |prefix| <= j < |s| ==> s[j] == rest[j - |prefix|];
    LastBehindPrefix(prefix, rest, ':');
    LastBehindPrefix(prefix, rest, '/');
  }

  lemma LastBehindPrefix(prefix: string, rest: string, c: char)
    ensures LastIndexOf(rest, c) >= 0 ==> LastIndexOf(prefix + rest, c) == |prefix| + LastIndexOf(rest, c)
    ensures LastIndexOf(rest, c) < 0 ==> LastIndexOf(prefix + rest, c) < |prefix|
  {
    var s := prefix + rest;
    assert forall j :: |prefix| <= j < |s| ==> s[j] == rest[j - |prefix|];
    assert LastIndexOf(rest, c) >= 0 ==> s[|prefix| + LastIndexOf(rest, c)] == c;
  }

  /** A prefix that ends in '/' and holds no '@' leaves the tag alone and extends the name. */
  lemma PrefixKeepsTag(prefix: string, rest: string)
    requires prefix != "" && prefix[|prefix| - 1] == '/' && '@' !in prefix
    ensures TagPart(prefix + rest) == TagPart(rest) && NamePart(prefix + rest) == prefix + NamePart(rest)
  {
    hide WithoutDigest, TagColon;
    DigestBehindPrefix(prefix, rest);
    PrefixKeepsColon(prefix, WithoutDigest(rest));
    CutBehindPrefix(prefix, WithoutDigest(rest), TagColon(WithoutDigest(rest)));
  }

  lemma CutBehindPrefix(prefix: string, named: string, colon: int)
    requires -1 <= colon < |named|
    ensures colon >= 0 ==> (prefix + named)[|prefix| + colon + 1..] == named[colon + 1..]
    ensures colon >= 0 ==> (prefix + named)[..|prefix| + colon] == prefix + named[..colon]
  {
  }

  /** The digest of a reference, with its '@'. */
  function DigestPart(image: string): string
  {
    image[|WithoutDigest(image)|..]
  }

  lemma PrefixKeepsDigest(prefix: string, rest: string)
    requires '@' !in prefix
    ensures DigestPart(prefix + rest) == DigestPart(rest)
  {
    DigestBehindPrefix(prefix, rest);
  }

  /** The registry segments of a reference: none, or one that ends in '/' and holds no '@'. */
  predicate Segment(prefix: string)
  {
    '@' !in prefix && (prefix != "" ==> prefix[|prefix| - 1] == '/')
  }

  /** Whatever registry segment stands in front, tag and digest are those of the rest and so is the path. */
  lemma SegmentKeepsPathTagAndDigest(prefix: string, rest: string)
    requires Segment(prefix)
    ensures TagPart(prefix + rest) == TagPart(rest) && DigestPart(prefix + rest) == DigestPart(rest)
    ensures NamePart(prefix + rest) == prefix + NamePart(rest)
  {
    if prefix == "" {
      assert prefix + rest == rest && prefix + NamePart(rest) == NamePart(rest);
    } else {
      PrefixKeepsTag(prefix, rest);
      PrefixKeepsDigest(prefix, rest);
    }
  }

  /** A swap replaces the registry segment and nothing else. */
  lemma SwapForm(image: string, registry: string, host: string, rest: string)
    requires SwapRegistry(image, registry).Ok?
    requires TrimSpace(image) == host + rest && |host| == HostLength(TrimSpace(image))
    ensures SwapRegistry(image, registry) == Ok(CleanRegistry(registry) + ['/'] + rest)
    ensures host != "" ==> host[|host| - 1] == '/'
  {
    var img := TrimSpace(image);
    assert img[|host|..] == rest;
    if host != "" {
      assert host[|host| - 1] == img[|host| - 1];
    }
  }

  /** Path, tag and digest survive a swap between registry segments without '@'. */
  lemma SwapKeepsPathTagAndDigest(image: string, registry: string)
    requires SwapRegistry(image, registry).Ok?
    requires var img := TrimSpace(image); '@' !in img[..HostLength(img)] && '@' !in CleanRegistry(registry)
    ensures var img, swapped := TrimSpace(image), SwapRegistry(image, registry).value;
      && TagPart(swapped) == TagPart(img) && DigestPart(swapped) == DigestPart(img)
      && var path := NamePart(img[HostLength(img)..]);
         NamePart(img) == img[..HostLength(img)] + path && NamePart(swapped) == CleanRegistry(registry) + ['/'] + path
  {
    hide TrimSpace, CleanRegistry, NamePart, TagPart, DigestPart, LooksLikeHost;
    var img := TrimSpace(image);
    var n := HostLength(img);
    var host, rest, prefix := img[..n], img[n..], CleanRegistry(registry) + ['/'];
    assert img == host + rest;
    SwapForm(image, registry, host, rest);
    SegmentKeepsPathTagAndDigest(host, rest);
    SegmentKeepsPathTagAndDigest(prefix, rest);
  }

  // ---- both rewrites on what is written -----------------------------------------

  /** The tag is put in the place of the old tag, and of a digest. */
  lemma RetagAsWritten(name: string, previous: string, digest: string, tag: string)
    requires name != "" && '@' !in name && SeparatorFree(previous) && Trimmed(tag) && tag != ""
    requires Trimmed(name + ":" + previous + "@" + digest)
    ensures RetagImage(name + ":" + previous + "@" + digest, tag) == Ok(name + ":" + tag)
  {
    hide TrimSpace, Trimmed, TagColon;
    var image := name + ":" + previous + "@" + digest;
    TrimSpaceMeaning(image);
    TrimSpaceMeaning(tag);
    assert '@' !in name + ":" + previous;
    IndexOfSplit(name + ":" + previous, '@', digest);
    var head := name + ":" + previous;
    assert image == head + ['@'] + digest && image[..|head|] == head;
    NameAndTag(name, previous);
    NamePartOfTagged(name, previous);
  }

  lemma NamePartOfTagged(name: string, tag: string)
    requires '@' !in name && SeparatorFree(tag)
    ensures WithoutDigest(name + ":" + tag) == name + ":" + tag
  {
    assert '@' !in name + ":" + tag;
  }

  /**
   The registry is put in the place of a first segment that names one, or in front; slashes at its end do not count.
   */
  lemma SwapAsWritten(first: string, rest: string, registry: string)
    requires '/' !in first && first != "" && rest != "" && Trimmed(first + "/" + rest)
    requires registry != "" && Trimmed(registry) && registry[|registry| - 1] != '/'
    ensures var swapped :=
        if '.' in first || ':' in first || first == "localhost" then registry + "/" + rest
        else registry + "/" + (first + "/" + rest);
      SwapRegistry(first + "/" + rest, registry) == SwapRegistry(first + "/" + rest, registry + "/") == Ok(swapped)
  {
    hide TrimSpace, Trimmed, TrimRightChar, LooksLikeHost;
    var image := first + "/" + rest;
    TrimSpaceMeaning(image);
    TrimSpaceMeaning(registry);
    OneSlashCut(registry);
    IndexOfSplit(first, '/', rest);
    assert image[..|first|] == first && image[|first| + 1..] == rest && image[0..] == image;
    HostLengthAs(first, rest);
  }

  lemma HostLengthAs(first: string, rest: string)
    requires '/' !in first && first != "" && rest != ""
    ensures HostLength(first + "/" + rest)
         == if '.' in first || ':' in first || first == "localhost" then |first| + 1 else 0
  {
    IndexOfSplit(first, '/', rest);
    assert (first + "/" + rest)[..|first|] == first;
  }

  lemma OneSlashCut(registry: string)
    requires registry != "" && registry[|registry| - 1] != '/'
    ensures TrimRightChar(registry, '/') == registry == TrimRightChar(registry + "/", '/')
  {
    var s := registry + "/";
    assert DropChar(registry, '/', |registry|) == |registry|;
    SamePrefixDrop(registry, s, |registry|);
    assert s[..|registry|] == registry;
  }

  lemma SamePrefixDrop(a: string, b: string, n: nat)
    requires 0 < n <= |a| && a <= b && a[n - 1] != '/'
    ensures DropChar(b, '/', n) == n
  {
  }

  /** A reference without any '/' names no registry. */
  lemma SwapShort(name: string, registry: string)
    requires '/' !in name && name != "" && Trimmed(name)
    requires registry != "" && Trimmed(registry) && registry[|registry| - 1] != '/'
    ensures SwapRegistry(name, registry) == Ok(registry + "/" + name)
  {
    hide TrimSpace, Trimmed, TrimRightChar;
    TrimSpaceMeaning(name);
    TrimSpaceMeaning(registry);
    OneSlashCut(registry);
    assert name[0..] == name;
  }
}
