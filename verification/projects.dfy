/**
 * The projects section: the declared project list, the filter tabs and the
 * list of projects shown for the active tab.
 */
module Projects {

  /** A project card's data; the icon element is presentation and is left out. */
  datatype Project = Project(
    title: string,
    description: string,
    image: string,
    technologies: seq<string>,
    link: string,
    github: string,
    category: string)

  const AllFilter := "All"

  const Filters: seq<string> := [AllFilter, "Web App", "UI/UX", "Backend"]

  const DeclaredProjects: seq<Project> := [
    Project("Apparell_glow",
            "A fully responsive e-commerce website with modern UI and seamless user experience.",
            "/assets/apparell_glow.jpg", ["Next.js", "Node.js", "Tailwind CSS", "MongoDB"],
            "https://apparellglow.vercel.app/", "#", "Web App"),
    Project("UrbanCamerron",
            "Interactive platform showcasing different cities in Cameroon with immersive visuals.",
            "/assets/urban_cameroon.jpg", ["React", "GSAP", "Tailwind CSS", "Firebase"],
            "https://urban-cameroon.vercel.app/", "#", "Web App"),
    Project("Portfolio Website",
            "Modern portfolio website with animations and interactive elements.",
            "/assets/portfolio.jpg", ["Next.js", "Framer Motion", "GSAP", "Tailwind CSS"],
            "#", "#", "UI/UX")
  ]

  /** `a` occurs in `b` in order, possibly with gaps. */
  predicate IsSubsequence<T(==)>(a: seq<T>, b: seq<T>)
    decreases |b|
  {
    if a == [] then true
    else if b == [] then false
    else if a[0] == b[0] then IsSubsequence(a[1..], b[1..])
    else IsSubsequence(a, b[1..])
  }

  /** `projects.filter(project => project.category === c)`. */
  function ByCategory(ps: seq<Project>, c: string): (r: seq<Project>)
    ensures |r| <= |ps|
    ensures forall i :: 0 <= i < |r| ==> r[i].category == c
    ensures forall p :: p in ps && p.category == c ==> p in r
    ensures forall p :: p in r ==> p in ps
  {
    if ps == [] then []
    else
      (if ps[0].category == c then [ps[0]] else []) + ByCategory(ps[1..], c)
  }

  /** Each project occurs in the filtered list as often as in the whole list when it matches, and never otherwise. */
  lemma {:induction false} ByCategoryCounts(ps: seq<Project>, c: string)
    ensures forall p :: multiset(ByCategory(ps, c))[p] == if p.category == c then multiset(ps)[p] else 0
  {
    if ps != [] {
      ByCategoryCounts(ps[1..], c);
      assert ps == [ps[0]] + ps[1..];
      var head := if ps[0].category == c then [ps[0]] else [];
      assert ByCategory(ps, c) == head + ByCategory(ps[1..], c);
      assert multiset(ByCategory(ps, c)) == multiset(head) + multiset(ByCategory(ps[1..], c));
      assert multiset(ps) == multiset([ps[0]]) + multiset(ps[1..]);
    }
  }

  /** The projects shown for the active filter tab. */
  function FilteredProjects(ps: seq<Project>, active: string): (r: seq<Project>)
    ensures active == AllFilter ==> r == ps
    ensures active != AllFilter ==> r == ByCategory(ps, active)
  {
    if active == AllFilter then ps else ByCategory(ps, active)
  }

  datatype View = View(activeFilter: string)

  const InitialView := View(AllFilter)

  /** `handleFilterChange`: the clicked tab becomes the active one. */
  function HandleFilterChange(v: View, filter: string): (r: View)
    ensures r.activeFilter == filter
  {
    v.(activeFilter := filter)
  }

  /** The cards rendered for a view. */
  function Shown(v: View): seq<Project> {
    FilteredProjects(DeclaredProjects, v.activeFilter)
  }

  /** Before any tab is clicked, "All" is active and every declared project is shown, in declared order. */
  lemma InitialViewShowsAll()
    ensures InitialView.activeFilter in Filters
    ensures Shown(InitialView) == DeclaredProjects
  {
  }

  /** After a tab is clicked, exactly the declared projects of that category are shown, or all of them for "All". */
  lemma FilterChangeShows(v: View, filter: string)
    ensures HandleFilterChange(v, filter).activeFilter == filter
    ensures forall p :: p in Shown(HandleFilterChange(v, filter))
                   <==> p in DeclaredProjects && (filter == AllFilter || p.category == filter)
  {
  }

  /** The filtered list keeps the projects' order. */
  lemma {:induction false} ByCategoryIsSubsequence(ps: seq<Project>, c: string)
    ensures IsSubsequence(ByCategory(ps, c), ps)
  {
    if ps != [] {
      ByCategoryIsSubsequence(ps[1..], c);
      var rest := ByCategory(ps[1..], c);
      if ps[0].category == c {
        assert ByCategory(ps, c) == [ps[0]] + rest;
        assert ([ps[0]] + rest)[1..] == rest;
      } else {
        assert ByCategory(ps, c) == rest;
        if rest != [] {
          assert rest[0].category == c;
        }
      }
    }
  }

  lemma FilteredIsSubsequence(ps: seq<Project>, active: string)
    ensures IsSubsequence(FilteredProjects(ps, active), ps)
  {
    if active == AllFilter {
      SubsequenceReflexive(ps);
    } else {
      ByCategoryIsSubsequence(ps, active);
    }
  }

  lemma {:induction false} SubsequenceReflexive<T>(a: seq<T>)
    ensures IsSubsequence(a, a)
    decreases |a|
  {
    if a != [] {
      SubsequenceReflexive(a[1..]);
    }
  }

  /** Filtering a filtered list by the same category changes nothing. */
  lemma {:induction false} ByCategoryIdempotent(ps: seq<Project>, c: string)
    ensures ByCategory(ByCategory(ps, c), c) == ByCategory(ps, c)
  {
    if ps != [] {
      ByCategoryIdempotent(ps[1..], c);
      var rest := ByCategory(ps[1..], c);
      if ps[0].category == c {
        var r := [ps[0]] + rest;
        assert ByCategory(ps, c) == r;
        assert r[0] == ps[0] && r[1..] == rest;
        assert ByCategory(r, c) == [ps[0]] + ByCategory(rest, c);
      } else {
        assert ByCategory(ps, c) == rest;
      }
    }
  }

  lemma FilteredIdempotent(ps: seq<Project>, active: string)
    ensures FilteredProjects(FilteredProjects(ps, active), active) == FilteredProjects(ps, active)
  {
    if active != AllFilter {
      ByCategoryIdempotent(ps, active);
    }
  }

  /** With the declared projects, each tab shows exactly these cards. */
  lemma DeclaredFilterResults()
    ensures FilteredProjects(DeclaredProjects, "All") == DeclaredProjects
    ensures FilteredProjects(DeclaredProjects, "Web App") == DeclaredProjects[..2]
    ensures FilteredProjects(DeclaredProjects, "UI/UX") == [DeclaredProjects[2]]
    ensures FilteredProjects(DeclaredProjects, "Backend") == []
  {
    var ps := DeclaredProjects;
    assert ps[1..][1..][1..] == [];
    assert ByCategory(ps[1..][1..], "Web App") == [];
    assert ByCategory(ps[1..][1..], "UI/UX") == [ps[2]];
    assert ByCategory(ps[1..][1..], "Backend") == [];
  }

  /** Every declared project is shown under some tab other than "All". */
  lemma EveryProjectHasATab()
    ensures forall p :: p in DeclaredProjects ==> p.category in Filters[1..]
  {
  }
}
