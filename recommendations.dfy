/**
 * The results page: career matches derived from the saved intake record by three
 * membership rules, and two fixed lists (colleges ranked by match score, an action plan).
 */
module Recommendations {
  import opened Wrappers
  import FormWizard

  datatype Demand = High | Medium | Low

  /** `CareerMatch` */
  datatype CareerMatch = CareerMatch(
    title: string,
    icon: string,
    matchPercentage: int,
    description: string,
    whyMatch: seq<string>,
    salaryRange: string,
    growthRate: string,
    demandLevel: Demand)

  /** `College` */
  datatype College = College(
    name: string,
    course: string,
    ranking: string,
    fees: string,
    location: string,
    admissionRate: string,
    link: string,
    matchScore: int)

  datatype Priority = HighPriority | MediumPriority | LowPriority

  datatype Category = Education | Skills | Experience | Networking

  /** `ActionStep` */
  datatype ActionStep = ActionStep(
    title: string,
    description: string,
    timeline: string,
    priority: Priority,
    category: Category,
    completed: Option<bool>)

  // ---------------------------------------------------------------------------
  // Career matches

  const SoftwareEngineerDescription :=
    "Build innovative software solutions and applications that impact millions of users worldwide."
  const SoftwareEngineerReasons := [
    "Strong programming and analytical skills",
    "High interest in technology and problem-solving",
    "Good academic performance in relevant subjects",
    "Leadership qualities valuable for team projects"]
  const SoftwareEngineer := CareerMatch(
    "Software Engineer / Full-Stack Developer", "💻", 94,
    SoftwareEngineerDescription, SoftwareEngineerReasons, "₹8-25 LPA", "15% annually", High)

  const MedicalDoctorDescription :=
    "Diagnose, treat, and care for patients while making a meaningful impact on people's lives."
  const MedicalDoctorReasons := [
    "Strong academic background in medical sciences",
    "Genuine interest in healthcare and helping others",
    "Good communication and empathy skills",
    "Dedication to continuous learning"]
  const MedicalDoctor := CareerMatch(
    "Medical Doctor / Specialist", "🏥", 89,
    MedicalDoctorDescription, MedicalDoctorReasons, "₹10-50 LPA", "12% annually", High)

  const BusinessAnalystDescription :=
    "Analyze business processes and provide strategic recommendations to drive growth."
  const BusinessAnalystReasons := [
    "Strong analytical and problem-solving skills",
    "Interest in business and strategy",
    "Good communication and presentation abilities",
    "Leadership potential"]
  const BusinessAnalyst := CareerMatch(
    "Business Analyst / Consultant", "💼", 87,
    BusinessAnalystDescription, BusinessAnalystReasons, "₹6-20 LPA", "10% annually", High)

  /** The default entry, used only when no rule fires. */
  const DataAnalystDescription :=
    "Transform raw data into actionable insights that drive business decisions."
  const DataAnalystReasons := [
    "Strong analytical thinking abilities",
    "Good with numbers and patterns",
    "Detail-oriented approach",
    "Growing field with high demand"]
  const DataAnalyst := CareerMatch(
    "Data Analyst", "📊", 82,
    DataAnalystDescription, DataAnalystReasons, "₹5-15 LPA", "20% annually", High)

  /** The three matching rules, in the order they are evaluated. */
  datatype Rule = TechnologyRule | MedicalRule | BusinessRule

  const Rules := [TechnologyRule, MedicalRule, BusinessRule]

  /** Whether a rule fires; membership is exact string equality. */
  predicate Fires(rule: Rule, skills: seq<string>, interests: seq<string>, stream: string) {
    match rule
    case TechnologyRule => "Programming" in skills || "Technology" in interests
    case MedicalRule => stream == "medical" || "Healthcare" in interests
    case BusinessRule => "Business" in interests || "Leadership" in skills
  }

  /** The entry a rule contributes. */
  function Entry(rule: Rule): CareerMatch {
    match rule
    case TechnologyRule => SoftwareEngineer
    case MedicalRule => MedicalDoctor
    case BusinessRule => BusinessAnalyst
  }

  /** The entries of the rules that fire, in rule order. */
  function Fired(rules: seq<Rule>, f: FormWizard.Form): (r: seq<CareerMatch>)
    ensures |r| <= |rules|
  {
    if rules == [] then []
    else
      (if Fires(rules[0], f.skills, f.interests, f.stream) then [Entry(rules[0])] else []) +
      Fired(rules[1..], f)
  }

  /**
   * The career list the results page shows: nothing without a saved record; otherwise the
   * entries of the rules that fire, or the default entry when none does, at most three.
   */
  function Recommended(saved: Option<FormWizard.Form>): seq<CareerMatch> {
    match saved
    case None => []
    case Some(f) =>
      var fired := Fired(Rules, f);
      var all := if fired == [] then [DataAnalyst] else fired;
      all[..if |all| < 3 then |all| else 3]
  }

  /**
   * `generateCareerRecommendations`: the rules pushed one by one onto an accumulator,
   * the default pushed when it is still empty, then `slice(0, 3)`.
   */
  method GenerateCareerRecommendations(saved: Option<FormWizard.Form>) returns (r: seq<CareerMatch>)
    ensures r == Recommended(saved)
  {
    if saved == None {
      return [];
    }
    var f := saved.value;
    var recommendations: seq<CareerMatch> := [];
    if "Programming" in f.skills || "Technology" in f.interests {
      recommendations := recommendations + [SoftwareEngineer];
    }
    if f.stream == "medical" || "Healthcare" in f.interests {
      recommendations := recommendations + [MedicalDoctor];
    }
    if "Business" in f.interests || "Leadership" in f.skills {
      recommendations := recommendations + [BusinessAnalyst];
    }
    if |recommendations| == 0 {
      recommendations := recommendations + [DataAnalyst];
    }
    r := recommendations[..if |recommendations| < 3 then |recommendations| else 3];
    FiredUnrolled(f);
  }

  /** Without a saved record there are no career matches. */
  lemma NoRecordNoCareers()
    ensures Recommended(None) == []
  {
  }

  /** The three rules unrolled. */
  lemma FiredUnrolled(f: FormWizard.Form)
    ensures Fired(Rules, f) ==
      (if Fires(TechnologyRule, f.skills, f.interests, f.stream) then [SoftwareEngineer] else []) +
      (if Fires(MedicalRule, f.skills, f.interests, f.stream) then [MedicalDoctor] else []) +
      (if Fires(BusinessRule, f.skills, f.interests, f.stream) then [BusinessAnalyst] else [])
  {
    var rs := Rules;
    assert rs[1..][1..][1..] == [];
    assert rs[0] == TechnologyRule && rs[1..][0] == MedicalRule && rs[1..][1..][0] == BusinessRule;
    assert Fired(rs[1..][1..], f) ==
      (if Fires(BusinessRule, f.skills, f.interests, f.stream) then [BusinessAnalyst] else []) +
      Fired(rs[1..][1..][1..], f);
  }

  /** With a saved record the list has one to three entries and the slice never drops one. */
  lemma CareerCountBounds(f: FormWizard.Form)
    ensures 1 <= |Recommended(Some(f))| <= 3
    ensures Recommended(Some(f)) == if Fired(Rules, f) == [] then [DataAnalyst] else Fired(Rules, f)
  {
  }

  /**
   * An entry is listed exactly when its rule fires, and the default entry exactly when
   * no rule fires: the default never appears beside a rule's entry.
   */
  lemma CareerEntryIffRuleFires(f: FormWizard.Form)
    ensures SoftwareEngineer in Recommended(Some(f)) <==> Fires(TechnologyRule, f.skills, f.interests, f.stream)
    ensures MedicalDoctor in Recommended(Some(f)) <==> Fires(MedicalRule, f.skills, f.interests, f.stream)
    ensures BusinessAnalyst in Recommended(Some(f)) <==> Fires(BusinessRule, f.skills, f.interests, f.stream)
  {
    FiredUnrolled(f);
    CareerCountBounds(f);
  }

  /** The data analyst entry appears exactly when no rule fires, and then it is the whole list. */
  lemma DefaultIffNoRuleFires(f: FormWizard.Form)
    ensures DataAnalyst in Recommended(Some(f)) <==> forall rule :: !Fires(rule, f.skills, f.interests, f.stream)
    ensures DataAnalyst in Recommended(Some(f)) <==> Recommended(Some(f)) == [DataAnalyst]
  {
    FiredUnrolled(f);
    CareerCountBounds(f);
  }

  /** When the technology rule fires, the software engineering entry (94) comes first. */
  lemma TechnologyComesFirst(f: FormWizard.Form)
    requires "Programming" in f.skills || "Technology" in f.interests
    ensures Recommended(Some(f))[0] == SoftwareEngineer
    ensures Recommended(Some(f))[0].matchPercentage == 94
  {
    FiredUnrolled(f);
    CareerCountBounds(f);
  }

  /** Output order is rule order, which is also strictly decreasing match percentage. */
  lemma CareerPercentagesDecrease(f: FormWizard.Form)
    ensures forall i, j | 0 <= i < j < |Recommended(Some(f))| ::
              Recommended(Some(f))[i].matchPercentage > Recommended(Some(f))[j].matchPercentage
  {
    FiredUnrolled(f);
    CareerCountBounds(f);
  }

  /** Only `skills`, `interests` and `stream` matter; the stage, the name, the performance do not. */
  lemma CareersDependOnTagsAndStream(f: FormWizard.Form, g: FormWizard.Form)
    requires f.skills == g.skills && f.interests == g.interests && f.stream == g.stream
    ensures Recommended(Some(f)) == Recommended(Some(g))
  {
    FiredUnrolled(f);
    FiredUnrolled(g);
  }

  /** Worked cases: programming alone, no matching tag, and a case difference that does not match. */
  lemma CareerExamples(f: FormWizard.Form)
    ensures Recommended(Some(f.(skills := ["Programming"], interests := [])))[0] == SoftwareEngineer
    ensures f.stream != "medical" ==>
              Recommended(Some(f.(skills := [], interests := []))) == [DataAnalyst]
    ensures f.stream != "medical" ==>
              Recommended(Some(f.(skills := ["programming"], interests := ["technology"]))) == [DataAnalyst]
  {
    TechnologyComesFirst(f.(skills := ["Programming"], interests := []));
    FiredUnrolled(f.(skills := [], interests := []));
    FiredUnrolled(f.(skills := ["programming"], interests := ["technology"]));
  }

  // ---------------------------------------------------------------------------
  // Colleges

  const IitDelhiName := "Indian Institute of Technology (IIT) Delhi"
  const IitDelhiCourse := "B.Tech Computer Science"
  const IitDelhiRanking := "#1 Engineering College"
  const IitDelhi := College(IitDelhiName, IitDelhiCourse, IitDelhiRanking, "₹2.5L per year", "New Delhi", "2.5%", "#", 95)

  const BitsPilaniName := "Birla Institute of Technology and Science (BITS) Pilani"
  const BitsPilaniCourse := "B.E. Computer Science"
  const BitsPilaniRanking := "#3 Private Engineering College"
  const BitsPilani := College(BitsPilaniName, BitsPilaniCourse, BitsPilaniRanking, "₹4.5L per year", "Pilani, Rajasthan", "8%", "#", 92)

  const DtuName := "Delhi Technological University (DTU)"
  const DtuCourse := "B.Tech Software Engineering"
  const DtuRanking := "#5 State Engineering College"
  const Dtu := College(DtuName, DtuCourse, DtuRanking, "₹1.5L per year", "New Delhi", "12%", "#", 88)

  const VitName := "Vellore Institute of Technology (VIT)"
  const VitCourse := "B.Tech Information Technology"
  const VitRanking := "#8 Private Engineering College"
  const Vit := College(VitName, VitCourse, VitRanking, "₹3.2L per year", "Vellore, Tamil Nadu", "15%", "#", 85)

  const ManipalName := "Manipal Institute of Technology"
  const ManipalCourse := "B.Tech Computer Engineering"
  const ManipalRanking := "#12 Private Engineering College"
  const Manipal := College(ManipalName, ManipalCourse, ManipalRanking, "₹3.8L per year", "Manipal, Karnataka", "18%", "#", 82)

  /** The colleges in the order the source lists them. */
  const CollegeTable := [IitDelhi, BitsPilani, Dtu, Vit, Manipal]

  /** Non-increasing by match score. */
  predicate SortedByScore(s: seq<College>) {
    forall i, j | 0 <= i < j < |s| :: s[i].matchScore >= s[j].matchScore
  }

  /** Places `c` before the first college that does not score higher. */
  function InsertByScore(c: College, s: seq<College>): (r: seq<College>)
    requires SortedByScore(s)
    ensures SortedByScore(r)
    ensures |r| == |s| + 1
    ensures forall i | 0 <= i < |r| :: r[i] == c || r[i] in s
  {
    if s == [] || s[0].matchScore <= c.matchScore then
      [c] + s
    else
      var rest := InsertByScore(c, s[1..]);
      assert forall i | 0 <= i < |rest| :: rest[i].matchScore <= s[0].matchScore;
      [s[0]] + rest
  }

  /** Insertion adds exactly one copy of `c`. */
  lemma {:induction false} InsertByScoreCounts(c: College, s: seq<College>)
    requires SortedByScore(s)
    ensures multiset(InsertByScore(c, s)) == multiset(s) + multiset{c}
  {
    if s != [] && s[0].matchScore > c.matchScore {
      assert s == [s[0]] + s[1..];
      InsertByScoreCounts(c, s[1..]);
    }
  }

  /**
   * `sort((a, b) => b.matchScore - a.matchScore)`: an insertion sort that is stable, as
   * `Array.prototype.sort` is.
   */
  function SortByScore(s: seq<College>): (r: seq<College>)
    ensures SortedByScore(r)
  {
    if s == [] then [] else InsertByScore(s[0], SortByScore(s[1..]))
  }

  /** Sorting permutes the list. */
  lemma {:induction false} SortByScoreCounts(s: seq<College>)
    ensures multiset(SortByScore(s)) == multiset(s)
  {
    if s != [] {
      assert s == [s[0]] + s[1..];
      SortByScoreCounts(s[1..]);
      InsertByScoreCounts(s[0], SortByScore(s[1..]));
    }
  }

  /** Sorting a list that is already ordered by score leaves it unchanged. */
  lemma {:induction false} SortSortedIsIdentity(s: seq<College>)
    requires SortedByScore(s)
    ensures SortByScore(s) == s
  {
    if s != [] {
      assert SortedByScore(s[1..]);
      SortSortedIsIdentity(s[1..]);
    }
  }

  /** `generateCollegeRecommendations`: the college table sorted by descending match score. */
  function CollegeRecommendations(): (r: seq<College>)
    ensures r == CollegeTable
    ensures |r| == 5 && SortedByScore(r)
    ensures r[0].matchScore == 95 && r[1].matchScore == 92 && r[2].matchScore == 88
    ensures r[3].matchScore == 85 && r[4].matchScore == 82
  {
    SortSortedIsIdentity(CollegeTable);
    SortByScore(CollegeTable)
  }

  // ---------------------------------------------------------------------------
  // Action plan

  const JeeDescription :=
    "Focus on Physics, Chemistry, and Mathematics. Join coaching or online courses. Target score: 95+ percentile"
  const JeeStep := ActionStep(
    "Prepare for JEE Main & Advanced", JeeDescription, "Next 6 months", HighPriority, Education, None)

  const ProgrammingDescription :=
    "Learn Python, Java, and data structures. Complete online courses and build projects"
  const ProgrammingStep := ActionStep(
    "Master Programming Fundamentals", ProgrammingDescription, "3-4 months", HighPriority, Skills, None)

  const PortfolioDescription :=
    "Create GitHub profile, develop 3-5 projects, contribute to open source"
  const PortfolioStep := ActionStep(
    "Build a Strong Portfolio", PortfolioDescription, "Ongoing", MediumPriority, Experience, None)

  const ProblemSolvingDescription :=
    "Practice coding problems on LeetCode, HackerRank, and CodeChef daily"
  const ProblemSolvingStep := ActionStep(
    "Develop Problem-Solving Skills", ProblemSolvingDescription, "Daily practice", HighPriority, Skills, None)

  const NetworkingDescription :=
    "Join tech communities, attend webinars, connect on LinkedIn"
  const NetworkingStep := ActionStep(
    "Network with Industry Professionals", NetworkingDescription, "2-3 months", MediumPriority, Networking, None)

  const PracticeDescription :=
    "Apply for internships, participate in hackathons, freelance projects"
  const PracticeStep := ActionStep(
    "Gain Practical Experience", PracticeDescription, "6-12 months", MediumPriority, Experience, None)

  /** `generateActionPlan`: a fixed list, independent of the record. */
  function ActionPlan(): seq<ActionStep> {
    [JeeStep, ProgrammingStep, PortfolioStep, ProblemSolvingStep, NetworkingStep, PracticeStep]
  }

  /** Six steps, starting with exam preparation, with priorities High, High, Medium, High, Medium, Medium. */
  lemma ActionPlanShape()
    ensures |ActionPlan()| == 6
    ensures ActionPlan()[0].title == "Prepare for JEE Main & Advanced"
    ensures ActionPlan()[0].priority == HighPriority && ActionPlan()[1].priority == HighPriority
    ensures ActionPlan()[2].priority == MediumPriority && ActionPlan()[3].priority == HighPriority
    ensures ActionPlan()[4].priority == MediumPriority && ActionPlan()[5].priority == MediumPriority
  {
  }
}
