/** The constant records the pages are built from: the signed-in user, the
    project list and the pricing plans. */
module Data {
  import opened Optional

  datatype ProjectStatus = Deployed | Developing | Draft

  datatype Project = Project(
    id: string,
    name: string,
    description: string,
    status: ProjectStatus,
    lastEdited: string,
    gradient: int,
    deployedUrl: Option<string>,
    framework: string)

  datatype Plan = Free | Standard | Pro

  datatype UserProfile = UserProfile(
    name: string,
    email: string,
    avatar: string,
    plan: Plan,
    credits: int,
    maxCredits: int)

  /** A pricing plan; an absent `popular` flag reads as false. */
  datatype PricingPlan = PricingPlan(
    name: string,
    description: string,
    monthlyPrice: int,
    annualPrice: int,
    features: seq<string>,
    popular: bool,
    cta: string)

  const MockUser: UserProfile :=
    UserProfile("Alex Chen", "alex@divergent.dev", "AC", Pro, 623, 750)

  const MockProjects: seq<Project> := [
    Project("proj-1", "Customer Support Bot",
      "AI-powered customer support chatbot with multi-language support",
      Deployed, "5 mins ago", 1, Some("https://support-bot.divergent.app"), "Next.js"),
    Project("proj-2", "Sales Outreach AI",
      "Automated sales outreach with personalized email generation",
      Developing, "2 hours ago", 2, None, "React"),
    Project("proj-3", "Content Generator",
      "Blog post and social media content generator",
      Draft, "1 day ago", 3, None, "Vue.js"),
    Project("proj-4", "Data Analysis Tool",
      "Interactive data visualization and analysis dashboard",
      Deployed, "1 hour ago", 4, Some("https://data-tool.divergent.app"), "Next.js"),
    Project("proj-5", "Code Assistant",
      "AI pair programming assistant with code review capabilities",
      Developing, "30 mins ago", 5, None, "React"),
    Project("proj-6", "Language Translator",
      "Real-time translation app with 50+ language support",
      Deployed, "2 days ago", 6, Some("https://translator.divergent.app"), "Next.js"),
    Project("proj-7", "E-commerce Builder",
      "No-code e-commerce platform with AI product descriptions",
      Developing, "4 hours ago", 7, None, "Next.js"),
    Project("proj-8", "Portfolio Maker",
      "Personal portfolio website builder with AI-generated content",
      Draft, "3 days ago", 8, None, "Astro")
  ]

  const PricingPlans: seq<PricingPlan> := [
    PricingPlan("Free", "Get started with essential features at no cost", 0, 0,
      ["10 free monthly credits", "Unlock all core platform features",
       "Build elegant Web experiences", "Instant access to advanced models",
       "One-click LLM integration"],
      false, "Get Started"),
    PricingPlan("Standard", "Perfect for first-time builders", 20, 17,
      ["Everything in Free, plus:", "Build web & mobile apps", "Private project hosting",
       "100 credits per month", "Purchase extra credits as needed", "GitHub integration",
       "Fork tasks"],
      false, "Get Started"),
    PricingPlan("Pro", "Built for serious creators and brands", 200, 167,
      ["Everything in Standard, plus:", "1M context window", "Ultra thinking",
       "System Prompt Edit", "Create custom AI agents", "High-performance computing",
       "750 Monthly Credits", "Priority customer support"],
      true, "Get Started")
  ]

  /** The user has not used more credits than the plan allows. */
  lemma CreditsWithinLimit()
    ensures 0 <= MockUser.credits <= MockUser.maxCredits
  {
  }

  /** Every plan is no dearer when billed annually, and the monthly prices
      strictly increase from Free to Standard to Pro (0, 20, 200). */
  lemma PlansOrdered()
    ensures |PricingPlans| == 3
    ensures forall i :: 0 <= i < |PricingPlans| ==>
      0 <= PricingPlans[i].annualPrice <= PricingPlans[i].monthlyPrice
    ensures forall i, j :: 0 <= i < j < |PricingPlans| ==>
      PricingPlans[i].monthlyPrice < PricingPlans[j].monthlyPrice
  {
  }

  /** Exactly one plan, Pro, is marked popular. */
  lemma OnlyProIsPopular()
    ensures forall i :: 0 <= i < |PricingPlans| ==>
      (PricingPlans[i].popular <==> PricingPlans[i].name == "Pro")
    ensures forall i, j ::
      0 <= i < |PricingPlans| && 0 <= j < |PricingPlans| && PricingPlans[i].popular && PricingPlans[j].popular
      ==> i == j
  {
  }

  /** The eight project ids are distinct and the gradients are exactly 1 to 8,
      in list order. */
  lemma ProjectsWellFormed()
    ensures |MockProjects| == 8
    ensures forall i :: 0 <= i < |MockProjects| ==> MockProjects[i].gradient == i + 1
    ensures forall i, j :: 0 <= i < j < |MockProjects| ==> MockProjects[i].id != MockProjects[j].id
  {
    forall i, j | 0 <= i < j < |MockProjects|
      ensures MockProjects[i].id != MockProjects[j].id
    {
      assert MockProjects[i].id[5] != MockProjects[j].id[5];
    }
  }

  /** A project has a deployed URL exactly when its status is deployed. */
  lemma DeployedUrlIffDeployed()
    ensures forall i :: 0 <= i < |MockProjects| ==>
      (MockProjects[i].deployedUrl.Some? <==> MockProjects[i].status == Deployed)
  {
  }
}
