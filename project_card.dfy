/** One project card: its colour gradient, its status chip, and its actions menu. */
module ProjectCard {
  import opened Data
  import opened Optional

  const Gradients: seq<string> := [
    "from-violet-600 via-purple-500 to-fuchsia-500",
    "from-blue-600 via-cyan-500 to-teal-400",
    "from-orange-500 via-amber-500 to-yellow-400",
    "from-rose-500 via-pink-500 to-purple-500",
    "from-emerald-500 via-green-400 to-lime-400",
    "from-indigo-600 via-blue-500 to-sky-400"
  ]

  /** The quotient of JavaScript's division truncated toward zero. */
  function JsQuot(a: int, b: int): int
    requires b > 0
  {
    if a >= 0 then a / b else -((-a) / b)
  }

  /** JavaScript's `%` on integers: the truncated remainder, which takes the
      sign of the dividend (Dafny's own `%` is Euclidean and never negative).
      Sign, bound and the division identity pin it down. */
  function JsRem(a: int, b: int): (r: int)
    requires b > 0
    ensures a >= 0 ==> 0 <= r < b
    ensures a <= 0 ==> -b < r <= 0
    ensures a == JsQuot(a, b) * b + r
  {
    if a >= 0 then a % b else -((-a) % b)
  }

  /** The index `(gradient - 1) % gradients.length` the card looks up. */
  function GradientIndex(gradient: int): int {
    JsRem(gradient - 1, |Gradients|)
  }

  /** The looked-up gradient; an index outside the array reads `undefined`. */
  function GradientOf(gradient: int): (r: Option<string>)
    ensures r.Some? <==> 0 <= GradientIndex(gradient) < |Gradients|
  {
    var k := GradientIndex(gradient);
    if 0 <= k < |Gradients| then Some(Gradients[k]) else None
  }

  /** For a gradient of 1 or more the index is the ordinary remainder and
      always selects one of the six gradients. */
  lemma PositiveGradientInRange(gradient: int)
    requires gradient >= 1
    ensures GradientIndex(gradient) == (gradient - 1) % 6
    ensures 0 <= GradientIndex(gradient) < 6 && GradientOf(gradient) == Some(Gradients[(gradient - 1) % 6])
  {
  }

  /** Gradients 7 and 8 wrap round to the colours of 1 and 2. */
  lemma GradientsWrap()
    ensures GradientIndex(7) == 0 && GradientIndex(8) == 1
    ensures GradientOf(7) == GradientOf(1) && GradientOf(8) == GradientOf(2)
  {
  }

  /** For a gradient of 0 or less the truncated remainder is never positive:
      0 gives -1 and no gradient, and the lookup succeeds only when
      `gradient - 1` is a multiple of six (its remainder is then zero). */
  lemma NonPositiveGradient(gradient: int)
    requires gradient <= 0
    ensures -6 < GradientIndex(gradient) <= 0
    ensures GradientOf(gradient).Some? <==> (1 - gradient) % 6 == 0
    ensures gradient == 0 ==> GradientIndex(gradient) == -1 && GradientOf(gradient) == None
  {
  }

  /** Every shipped project finds a gradient. */
  lemma ShippedProjectsHaveGradients()
    ensures forall i :: 0 <= i < |MockProjects| ==> GradientOf(MockProjects[i].gradient).Some?
  {
    ProjectsWellFormed();
    forall i | 0 <= i < |MockProjects|
      ensures GradientOf(MockProjects[i].gradient).Some?
    {
      PositiveGradientInRange(MockProjects[i].gradient);
    }
  }

  /** The status chip: dot colour, caption and text colour. */
  datatype StatusStyle = StatusStyle(color: string, caption: string, textColor: string)

  function StatusConfig(status: ProjectStatus): (r: StatusStyle)
    ensures status == Deployed <==> r.caption == "Live"
    ensures status == Developing <==> r.caption == "Building"
    ensures status == Draft <==> r.caption == "Draft"
  {
    match status
    case Deployed => StatusStyle("bg-green-400", "Live", "text-green-400")
    case Developing => StatusStyle("bg-yellow-400", "Building", "text-yellow-400")
    case Draft => StatusStyle("bg-gray-400", "Draft", "text-gray-400")
  }

  /** Only a deployed project's dot pulses. */
  predicate Pulses(status: ProjectStatus) {
    status == Deployed
  }

  /** The three statuses get three different captions, and the pulse marks
      exactly the "Live" ones. */
  lemma StatusCaptionsDistinct(s1: ProjectStatus, s2: ProjectStatus)
    ensures StatusConfig(s1).caption == StatusConfig(s2).caption ==> s1 == s2
    ensures Pulses(s1) <==> StatusConfig(s1).caption == "Live"
  {
  }

  const MenuActions: seq<string> := ["Open", "Rename", "Duplicate", "Delete"]

  /** Whether a menu action is styled as destructive. */
  predicate Destructive(action: string) {
    action == "Delete"
  }

  /** Delete is the last action and the only destructive one. */
  lemma OnlyDeleteIsDestructive()
    ensures forall i :: 0 <= i < |MenuActions| ==> (Destructive(MenuActions[i]) <==> i == |MenuActions| - 1)
  {
  }

  /** The card's actions menu (`menuOpen`). */
  class CardMenu {
    var open: bool

    constructor ()
      ensures !open
    {
      open := false;
    }

    /** The "more" button flips the menu (the click does not reach the card). */
    method ClickMenuButton()
      modifies this
      ensures open == !old(open)
    {
      open := !open;
    }

    /** A mouse press in the document: outside the menu's container it closes
        the menu, inside it changes nothing. */
    method MouseDown(insideMenu: bool)
      modifies this
      ensures open == (old(open) && insideMenu)
    {
      if !insideMenu {
        open := false;
      }
    }
  }
}
