/** The course-list loop of `process_courses` (app.py:101-117): each "View" link on the course list
    becomes a (course name, absolute URL) pair. */
module CourseLocator {
  import opened Text
  import opened Outcomes

  /** The portal's origin, prefixed to every href that is not already an `https://` URL. */
  const Origin: string := "https://www.epiclearningnetwork.com"

  /** The only scheme the resolver recognises. */
  const Secure: string := "https://"

  /** A "View" link: the text of the first cell of its parent row, and its `href` attribute (absent
      or present); either read may raise. */
  datatype Link = Link(name: Read<string>, href: Read<Option<string>>)

  /** A course to visit: its stripped name and the absolute URL of its dates page. */
  datatype CourseRef = CourseRef(name: string, url: string)

  /** The courses found and the errors reported, in link order. */
  datatype Listing = Listing(courses: seq<CourseRef>, errors: seq<Report>)

  /** What one link contributes. */
  datatype LinkStep =
    | Found(course: CourseRef)  // appended to the course list
    | Unlinked                  // no href, or an empty one: left out silently
    | Unreadable                // a read raised: reported, the loop goes on

  /** Makes an href absolute by plain concatenation: an `https://` URL is kept, anything else
      (a path, but also an `http://` URL) gets the portal's origin in front. */
  function Resolve(href: string): (url: string)
    ensures Secure <= url
    ensures |href| <= |url| && url[|url| - |href|..] == href
    ensures url == href || url == Origin + href
  {
    if Secure <= href then href else Origin + href
  }

  function LinkStepOf(link: Link): (step: LinkStep)
    ensures step.Found? ==> IsStripped(step.course.name) && Secure <= step.course.url
    ensures step.Unreadable? <==> link.name.Fail? || link.href.Fail?
  {
    match link.name
    case Fail => Unreadable
    case Ok(name) =>
      match link.href
      case Fail => Unreadable
      case Ok(href) =>
        if href.None? || href.value == [] then Unlinked
        else Found(CourseRef(Strip(name), Resolve(href.value)))
  }

  function Contribution(step: LinkStep): Listing {
    match step
    case Found(c) => Listing([c], [])
    case Unlinked => Listing([], [])
    case Unreadable => Listing([], [CourseInfoError])
  }

  function Join(a: Listing, b: Listing): Listing {
    Listing(a.courses + b.courses, a.errors + b.errors)
  }

  /** The step of every link, in page order. */
  function Steps(links: seq<Link>): (steps: seq<LinkStep>)
    ensures |steps| == |links|
    ensures forall j :: 0 <= j < |links| ==> steps[j] == LinkStepOf(links[j])
  {
    seq(|links|, j requires 0 <= j < |links| => LinkStepOf(links[j]))
  }

  /** The courses and errors of a run of steps, in order. */
  function Collect(steps: seq<LinkStep>): (l: Listing)
    ensures |l.courses| + |l.errors| <= |steps|
  {
    if steps == [] then Listing([], [])
    else Join(Collect(steps[..|steps| - 1]), Contribution(steps[|steps| - 1]))
  }

  /** What the loop yields for the links, taken in page order. */
  function Listed(links: seq<Link>): (l: Listing)
    ensures |l.courses| + |l.errors| <= |links|
  {
    Collect(Steps(links))
  }

  /** The loop over the "View" links: reads each link's course name and href and keeps the links
      that have an href. */
  method ListCourses(links: seq<Link>) returns (courses: seq<CourseRef>, errors: seq<Report>)
    ensures Listing(courses, errors) == Listed(links)
  {
    courses, errors := [], [];
    var i := 0;
    while i < |links|
      invariant i <= |links|
      invariant Listing(courses, errors) == Collect(Steps(links)[..i])
    {
      var found, reported := ReadLink(links[i]);
      CollectOneMore(Steps(links), i);
      courses, errors := courses + found, errors + reported;
      i := i + 1;
    }
    assert Steps(links)[..i] == Steps(links);
  }

  /** The body of the loop's `try`: the name read, then the href read, then the href test. */
  method ReadLink(link: Link) returns (courses: seq<CourseRef>, errors: seq<Report>)
    ensures Listing(courses, errors) == Contribution(LinkStepOf(link))
  {
    courses, errors := [], [];
    if link.name.Fail? {
      errors := [CourseInfoError];
      return;
    }
    var name := Strip(link.name.value);
    if link.href.Fail? {
      errors := [CourseInfoError];
      return;
    }
    var href := link.href.value;
    if href.Some? && href.value != [] {
      var url := href.value;
      if !(Secure <= url) {
        url := Origin + url;
      }
      courses := [CourseRef(name, url)];
    }
  }

  lemma CollectOneMore(steps: seq<LinkStep>, i: nat)
    requires i < |steps|
    ensures Collect(steps[..i + 1]) == Join(Collect(steps[..i]), Contribution(steps[i]))
  {
    assert steps[..i + 1][..i] == steps[..i];
  }

  /** An `https://` href is stored unchanged. */
  lemma SecureHrefKept(href: string)
    requires Secure <= href
    ensures Resolve(href) == href
  {
  }

  /** Any other href gets the origin in front, verbatim: a path becomes a URL on the portal, and an
      `http://` URL is prefixed too, since only `https://` is recognised. */
  lemma OtherHrefPrefixed(href: string)
    requires !(Secure <= href)
    ensures Resolve(href) == Origin + href
    ensures Resolve(href) != href
  {
  }

  /** Resolving twice is resolving once: every resolved URL is kept by a second pass. */
  lemma ResolveIdempotent(href: string)
    ensures Resolve(Resolve(href)) == Resolve(href)
  {
  }

  /** A plain-http URL is not recognised as absolute: it gets the origin in front. */
  lemma HttpHrefPrefixed(rest: string)
    ensures Resolve("http://" + rest) == Origin + "http://" + rest
  {
    assert ("http://" + rest)[4] == ':' != Secure[4];
  }

  /** A link without an href, or with an empty one, adds no course and no error. */
  lemma MissingHrefSkipped(name: string, href: Option<string>)
    requires href.None? || href.value == []
    ensures Listed([Link(Ok(name), Ok(href))]) == Listing([], [])
  {
    var steps := Steps([Link(Ok(name), Ok(href))]);
    assert steps[..0] == [];
  }

  /** Collecting is compositional, so the course list keeps link order. */
  lemma {:induction false} CollectAppend(a: seq<LinkStep>, b: seq<LinkStep>)
    ensures Collect(a + b) == Join(Collect(a), Collect(b))
  {
    if b == [] {
      assert a + b == a;
    } else {
      var b' := b[..|b| - 1];
      assert (a + b)[..|a + b| - 1] == a + b';
      CollectAppend(a, b');
    }
  }

  /** The course list of links `a + b` is that of `a` followed by that of `b`. */
  lemma ListedAppend(a: seq<Link>, b: seq<Link>)
    ensures Listed(a + b) == Join(Listed(a), Listed(b))
  {
    assert Steps(a + b) == Steps(a) + Steps(b);
    CollectAppend(Steps(a), Steps(b));
  }

  /** A course is collected exactly when some step finds it. */
  lemma {:induction false} CollectMembership(steps: seq<LinkStep>, c: CourseRef)
    ensures c in Collect(steps).courses <==> Found(c) in steps
  {
    if steps != [] {
      var n := |steps| - 1;
      CollectMembership(steps[..n], c);
      assert steps == steps[..n] + [steps[n]];
    }
  }

  /** A course is listed exactly when some link yields it. */
  lemma ListedMembership(links: seq<Link>, c: CourseRef)
    ensures c in Listed(links).courses <==> exists j :: 0 <= j < |links| && LinkStepOf(links[j]) == Found(c)
  {
    CollectMembership(Steps(links), c);
  }

  /** Every listed course has a stripped name and an `https://` URL. */
  lemma ListedWellFormed(links: seq<Link>)
    ensures forall c :: c in Listed(links).courses ==> IsStripped(c.name) && Secure <= c.url
  {
    forall c | c in Listed(links).courses
      ensures IsStripped(c.name) && Secure <= c.url
    {
      ListedMembership(links, c);
    }
  }

  /** Collecting reports only link errors. */
  lemma {:induction false} CollectReportsLinkErrors(steps: seq<LinkStep>)
    ensures forall e :: e in Collect(steps).errors ==> e == CourseInfoError
  {
    if steps != [] {
      CollectReportsLinkErrors(steps[..|steps| - 1]);
    }
  }

  /** The loop over the links reports nothing but unreadable links. */
  lemma ListedReportsOnlyLinkErrors(links: seq<Link>)
    ensures forall e :: e in Listed(links).errors ==> e == CourseInfoError
  {
    CollectReportsLinkErrors(Steps(links));
  }

  /** As written, the course name is read with `await` applied to `Locator.first`, which is a
      property holding a locator rather than something that can be awaited, so the read raises for
      every link: the loop behaves as if no name could ever be read. */
  function ListedAsWritten(links: seq<Link>): (l: Listing)
    ensures |l.courses| + |l.errors| <= |links|
  {
    Listed(seq(|links|, j requires 0 <= j < |links| => links[j].(name := Fail)))
  }

  /** As written, the course list is always empty and every link is reported. */
  lemma ListedAsWrittenFindsNothing(links: seq<Link>)
    ensures ListedAsWritten(links).courses == []
    ensures ListedAsWritten(links).errors == seq(|links|, _ => CourseInfoError)
  {
    var unread := seq(|links|, j requires 0 <= j < |links| => links[j].(name := Fail));
    AllUnreadable(Steps(unread));
  }

  lemma {:induction false} AllUnreadable(steps: seq<LinkStep>)
    requires forall j :: 0 <= j < |steps| ==> steps[j] == Unreadable
    ensures Collect(steps) == Listing([], seq(|steps|, _ => CourseInfoError))
  {
    if steps != [] {
      AllUnreadable(steps[..|steps| - 1]);
    }
  }

  /** One readable link with a path href: the corrected loop lists its course, as written nothing. */
  lemma ListedAsWrittenMissesCourse()
    ensures var links := [Link(Ok("Intro"), Ok(Some("/a")))];
            Listed(links).courses == [CourseRef("Intro", Origin + "/a")] &&
            ListedAsWritten(links).courses == []
  {
    var links := [Link(Ok("Intro"), Ok(Some("/a")))];
    assert Resolve("/a") == Origin + "/a" by {
      assert "/a"[0] != Secure[0];
    }
    assert Strip("Intro") == "Intro" by {
      PrintableIsNotSpace('I');
      PrintableIsNotSpace('o');
      StrippedIsFixpoint("Intro");
    }
    var steps := Steps(links);
    assert steps == [Found(CourseRef("Intro", Origin + "/a"))];
    assert steps[..0] == [];
    ListedAsWrittenFindsNothing(links);
  }
}
