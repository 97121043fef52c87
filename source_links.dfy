/**
 * The "Più info" panel of an assistant turn: for every retrieved chunk the
 * script looks at the chunk's file name and, by an ordered chain of
 * case-sensitive substring tests, emits at most one link to a known document.
 * Only a match on the "generali" fragment stops the scan.
 */
module SourceLinks {
  import opened Wrappers

  /** The four links the panel can show (rendered markdown and URLs are not modelled). */
  datatype Link = BarLink | RicettarioLink | FrighiLink | SiteLink

  /** One row of the fixed link table: the file-name fragment that selects a link. */
  datatype Rule = Rule(fragment: string, link: Link)

  /** The link table, in the priority order of the if/elif chain. */
  const Rules: seq<Rule> := [
    Rule("Bar", BarLink),
    Rule("Ricettario", RicettarioLink),
    Rule("frighi", FrighiLink),
    Rule("generali", SiteLink)
  ]

  /** One entry of a query response's metadata: the chunk id and its `file_name`, which may be absent. */
  datatype Entry = Entry(nodeId: string, fileName: Option<string>)

  // ---------------------------------------------------------------------------
  // Substring containment (Python's `fragment in s` on strings)
  // ---------------------------------------------------------------------------

  /** `fragment` occurs in `s` starting at index `i`. */
  ghost predicate OccursAt(s: string, fragment: string, i: nat) {
    i + |fragment| <= |s| && s[i..i + |fragment|] == fragment
  }

  /** `fragment in s`: compares characters exactly, so it is case-sensitive. */
  predicate Contains(s: string, fragment: string)
    decreases |s|
  {
    fragment <= s || (|s| > 0 && Contains(s[1..], fragment))
  }

  /** An occurrence at any position makes `Contains` hold. */
  lemma {:induction false} OccursAtContains(s: string, fragment: string, i: nat)
    requires OccursAt(s, fragment, i)
    ensures Contains(s, fragment)
    decreases i
  {
    if i > 0 {
      assert s[1..][i - 1..i - 1 + |fragment|] == s[i..i + |fragment|];
      OccursAtContains(s[1..], fragment, i - 1);
    }
  }

  /** Contains agrees with the positional definition of a substring occurrence. */
  lemma {:induction false} ContainsIff(s: string, fragment: string)
    ensures Contains(s, fragment) <==> exists i: nat :: OccursAt(s, fragment, i)
    decreases |s|
  {
    if exists i: nat :: OccursAt(s, fragment, i) {
      var i: nat :| OccursAt(s, fragment, i);
      OccursAtContains(s, fragment, i);
    }
    if Contains(s, fragment) {
      if fragment <= s {
        assert OccursAt(s, fragment, 0);
      } else {
        ContainsIff(s[1..], fragment);
        var i: nat :| OccursAt(s[1..], fragment, i);
        assert s[i + 1..i + 1 + |fragment|] == s[1..][i..i + |fragment|];
        assert OccursAt(s, fragment, i + 1);
      }
    }
  }

  // ---------------------------------------------------------------------------
  // Classifying one file name
  // ---------------------------------------------------------------------------

  /** Rule `k` is the first rule of the table whose fragment occurs in `name`. */
  predicate FirstMatchAt(name: string, k: nat)
    requires k < |Rules|
  {
    Contains(name, Rules[k].fragment) &&
    forall j :: 0 <= j < k ==> !Contains(name, Rules[j].fragment)
  }

  /** The if/elif chain on one file name: the link it writes, or None when no branch is taken. */
  function Classify(name: string): Option<Link> {
    if Contains(name, "Bar") then Some(BarLink)
    else if Contains(name, "Ricettario") then Some(RicettarioLink)
    else if Contains(name, "frighi") then Some(FrighiLink)
    else if Contains(name, "generali") then Some(SiteLink)
    else None
  }

  /**
   * The chain follows the table's priority order: a name gets the link of the
   * first rule whose fragment it contains, and no link when it contains none.
   */
  lemma ClassifyFirstMatch(name: string)
    ensures forall k :: 0 <= k < |Rules| ==> (Classify(name) == Some(Rules[k].link) <==> FirstMatchAt(name, k))
    ensures Classify(name) == None <==> forall k :: 0 <= k < |Rules| ==> !Contains(name, Rules[k].fragment)
  {
    assert Rules[0].fragment == "Bar" && Rules[1].fragment == "Ricettario";
    assert Rules[2].fragment == "frighi" && Rules[3].fragment == "generali";
  }

  // ---------------------------------------------------------------------------
  // The annotator over a whole metadata sequence
  // ---------------------------------------------------------------------------

  /**
   * The links the scan writes for the file names, in iteration order. A site
   * link ends the scan; every other outcome moves on to the next entry.
   */
  function Annotate(names: seq<string>): (r: seq<Link>)
    ensures |r| <= |names|
    ensures SiteLink in r ==> r[|r| - 1] == SiteLink && forall k :: 0 <= k < |r| - 1 ==> r[k] != SiteLink
  {
    if names == [] then []
    else match Classify(names[0])
      case None => Annotate(names[1..])
      case Some(SiteLink) => [SiteLink]
      case Some(l) => [l] + Annotate(names[1..])
  }

  /** No entry of `names` stops the scan. */
  predicate NoStop(names: seq<string>) {
    forall j :: 0 <= j < |names| ==> Classify(names[j]) != Some(SiteLink)
  }

  /** Dropping the first entry keeps NoStop. */
  lemma NoStopTail(names: seq<string>)
    requires names != [] && NoStop(names)
    ensures NoStop(names[1..])
  {
  }

  /** Without a stopping entry in front, annotating a concatenation annotates each part in turn. */
  lemma {:induction false} AnnotateConcat(a: seq<string>, b: seq<string>)
    requires NoStop(a)
    ensures Annotate(a + b) == Annotate(a) + Annotate(b)
  {
    if a != [] {
      assert (a + b)[0] == a[0] && (a + b)[1..] == a[1..] + b;
      assert Classify(a[0]) != Some(SiteLink);
      NoStopTail(a);
      AnnotateConcat(a[1..], b);
      match Classify(a[0])
      case None =>
      case Some(l) =>
        assert Annotate(a + b) == [l] + (Annotate(a[1..]) + Annotate(b));
    } else {
      assert a + b == b;
    }
  }

  /**
   * An entry that selects the site link is the last one examined: the result is
   * the annotation of the entries before it followed by the site link, and the
   * entries after it contribute nothing.
   */
  lemma {:induction false} SiteLinkStopsScan(names: seq<string>, i: nat)
    requires i < |names| && Classify(names[i]) == Some(SiteLink)
    requires NoStop(names[..i])
    ensures Annotate(names) == Annotate(names[..i]) + [SiteLink]
    ensures SiteLink !in Annotate(names[..i])
  {
    assert names == names[..i] + names[i..];
    AnnotateConcat(names[..i], names[i..]);
    NoStopNoSite(names[..i]);
  }

  /** Without a stopping entry there is no site link in the output. */
  lemma {:induction false} NoStopNoSite(names: seq<string>)
    requires NoStop(names)
    ensures SiteLink !in Annotate(names)
  {
    if names != [] {
      NoStopTail(names);
      NoStopNoSite(names[1..]);
    }
  }

  /** Appending entries after an output that already holds the site link changes nothing. */
  lemma {:induction false} LaterEntriesIgnored(names: seq<string>, rest: seq<string>)
    requires SiteLink in Annotate(names)
    ensures Annotate(names + rest) == Annotate(names)
  {
    if names != [] {
      assert (names + rest)[0] == names[0];
      assert (names + rest)[1..] == names[1..] + rest;
      if Classify(names[0]) != Some(SiteLink) {
        LaterEntriesIgnored(names[1..], rest);
      }
    }
  }

  /** Entries that match none of the fragments write nothing at all. */
  lemma {:induction false} NoMatchNoLinks(names: seq<string>)
    requires forall j :: 0 <= j < |names| ==> Classify(names[j]) == None
    ensures Annotate(names) == []
  {
    if names != [] {
      NoMatchNoLinks(names[1..]);
    }
  }

  /** Every link written was selected by some entry (no link is invented). */
  lemma {:induction false} LinkHasSource(names: seq<string>, l: Link)
    requires l in Annotate(names)
    ensures exists j :: 0 <= j < |names| && Classify(names[j]) == Some(l)
  {
    if Classify(names[0]) != Some(l) {
      LinkHasSource(names[1..], l);
      var j :| 0 <= j < |names[1..]| && Classify(names[1..][j]) == Some(l);
      assert names[1..][j] == names[j + 1];
    }
  }

  /** Conversely, every entry before the stop that selects a link has that link written. */
  lemma {:induction false} SourceHasLink(names: seq<string>, i: nat, l: Link)
    requires i < |names| && Classify(names[i]) == Some(l)
    requires NoStop(names[..i])
    ensures l in Annotate(names)
  {
    if i > 0 {
      assert names[1..][..i - 1] == names[..i][1..];
      NoStopTail(names[..i]);
      assert names[0] == names[..i][0];
      SourceHasLink(names[1..], i - 1, l);
    }
  }

  // ---------------------------------------------------------------------------
  // The loop over the metadata
  // ---------------------------------------------------------------------------

  /** Every entry carries a file name (an absent one makes `"Bar" in None` raise). */
  predicate AllNamed(metadata: seq<Entry>) {
    forall k :: 0 <= k < |metadata| ==> metadata[k].fileName.Some?
  }

  /** The file names of the metadata, in iteration order. */
  function FileNames(metadata: seq<Entry>): (names: seq<string>)
    requires AllNamed(metadata)
    ensures |names| == |metadata|
    ensures forall k :: 0 <= k < |metadata| ==> Some(names[k]) == metadata[k].fileName
  {
    seq(|metadata|, k requires 0 <= k < |metadata| => metadata[k].fileName.value)
  }

  /** One step of the scan: how the annotation of `names[i..]` depends on entry `i`. */
  lemma AnnotateFrom(names: seq<string>, i: nat)
    requires i < |names|
    ensures Classify(names[i]) == None ==> Annotate(names[i..]) == Annotate(names[i + 1..])
    ensures Classify(names[i]) == Some(SiteLink) ==> Annotate(names[i..]) == [SiteLink]
    ensures forall l :: l != SiteLink && Classify(names[i]) == Some(l) ==>
      Annotate(names[i..]) == [l] + Annotate(names[i + 1..])
  {
  }

  /** The scan of the metadata, writing each link into the panel as it goes. */
  method ShowSources(metadata: seq<Entry>) returns (links: seq<Link>)
    requires AllNamed(metadata)
    ensures links == Annotate(FileNames(metadata))
  {
    ghost var names := FileNames(metadata);
    links := [];
    var i := 0;
    while i < |metadata|
      invariant 0 <= i <= |metadata|
      invariant links + Annotate(names[i..]) == Annotate(names)
    {
      var fileName := metadata[i].fileName.value;
      AnnotateFrom(names, i);
      if Contains(fileName, "Bar") {
        links := links + [BarLink];
      } else if Contains(fileName, "Ricettario") {
        links := links + [RicettarioLink];
      } else if Contains(fileName, "frighi") {
        links := links + [FrighiLink];
      } else if Contains(fileName, "generali") {
        links := links + [SiteLink];
        break;
      }
      i := i + 1;
    }
  }

  // ---------------------------------------------------------------------------
  // Concrete scans
  // ---------------------------------------------------------------------------

  /** A fragment whose first character never occurs in `s` is not contained in it. */
  lemma {:induction false} MissingFirstChar(s: string, fragment: string)
    requires |fragment| > 0 && fragment[0] !in s
    ensures !Contains(s, fragment)
    decreases |s|
  {
    if |s| > 0 {
      assert s[0] in s;
      assert forall c :: c in s[1..] ==> c in s;
      MissingFirstChar(s[1..], fragment);
    }
  }

  /** A bar document gets the bar link, and only that. */
  lemma ExampleBarPolicy(name: string)
    requires name == "Bar_Policy.docx"
    ensures Annotate([name]) == [BarLink]
  {
  }

  /** Matching is case-sensitive: a lower-case "bar" selects nothing. */
  lemma ExampleLowerCaseBar(name: string)
    requires name == "bar_menu.docx"
    ensures Annotate([name]) == []
  {
    MissingFirstChar(name, "Bar");
    MissingFirstChar(name, "Ricettario");
    MissingFirstChar(name, "frighi");
    MissingFirstChar(name, "generali");
  }

  /** A recipe book and a fridge document both get their links, in entry order. */
  lemma ExampleRecipesThenFridges(recipes: string, fridges: string)
    requires recipes == "Ricettario.pdf" && fridges == "frighi.pdf"
    ensures Annotate([recipes, fridges]) == [RicettarioLink, FrighiLink]
  {
    MissingFirstChar(recipes, "Bar");
    assert "Ricettario" <= recipes;
    MissingFirstChar(fridges, "Bar");
    MissingFirstChar(fridges, "Ricettario");
    assert "frighi" <= fridges;
    AnnotateConcat([recipes], [fridges]);
    assert [recipes, fridges] == [recipes] + [fridges];
  }

  /** A general-rules document stops the scan before a later bar document. */
  lemma ExampleGeneralStops(general: string, bar: string)
    requires general == "Norme generali.docx" && bar == "Bar.docx"
    ensures Annotate([general, bar]) == [SiteLink]
  {
    MissingFirstChar(general, "Bar");
    MissingFirstChar(general, "Ricettario");
    MissingFirstChar(general, "frighi");
    assert OccursAt(general, "generali", 6);
    OccursAtContains(general, "generali", 6);
  }
}
