/** The built-in portfolio (constants.ts), written on first access when no
    copy is stored. */
module Constants {
  import opened Wrappers
  import opened Types
  import Sections

  /** The five page sections, all visible, in order 1 to 5. */
  const DefaultSections: seq<SectionConfig> := [
    SectionConfig("hero", "Hero Section", true, 1),
    SectionConfig("skills", "Skills & Tech", true, 2),
    SectionConfig("experience", "Work Experience", true, 3),
    SectionConfig("projects", "Projects", true, 4),
    SectionConfig("contact", "Contact Info", true, 5)
  ]

  const DefaultTitles := SectionTitles(
    experience := Some("Timeline"),
    education := Some("Knowledge"),
    certifications := Some("Verified"),
    projects := Some("Showcase"),
    skills := Some("Explored Tech"),
    contact := Some("Let's Talk"))

  /** Both modes present, every slot the empty string ("inherit"). */
  const DefaultColors := CustomColors(Some(EmptyColorSet), Some(EmptyColorSet))

  const DefaultSkills := ProgrammingSkills(
    languages := [
      Skill("HTML", 6, 100), Skill("CSS", 6, 90), Skill("JavaScript", 6, 90),
      Skill("PHP", 5, 80), Skill("Python", 3, 70), Skill("TypeScript", 2, 65)
    ],
    frameworks := [
      Skill("Laravel", 5, 85), Skill("React", 4, 85), Skill("Express.js", 4, 80),
      Skill("Next.js", 2, 70), Skill("CodeIgniter", 2, 60)
    ],
    tools := [
      Skill("Bootstrap", 5, 95), Skill("Tailwind", 4, 90),
      Skill("Firebase", 3, 75), Skill("Supabase", 1, 50)
    ])

  predicate ProficiencyInRange(skills: seq<Skill>) {
    forall k :: 0 <= k < |skills| ==> 0 <= skills[k].proficiency <= 100
  }

  const DefaultBio := Bio(
    "John Doe",
    "Full-Stack Software Engineer",
    "I build robust, scalable web applications with a focus on high-performance backends and intuitive user interfaces. Passionate about AI integration and automation.",
    "https://picsum.photos/400/400")

  const DefaultEducation := [
    Education("University of Technology", "B.Sc. Computer Science", "2018 - 2022", Some(3.85), Some("First Class"))
  ]

  const DefaultCourses := [
    Certification("Full Stack Web Development", "Tech Academy", "2023",
                  ["React", "Node.js", "PostgreSQL", "Tailwind CSS"])
  ]

  const DefaultSoftSkills := [
    "Office management and secretariat duties.",
    "Ability to organize meetings and events.",
    "Multi-tasking efficiency.",
    "Independent problem solving.",
    "Graphics Design proficiency.",
    "Project management and entrepreneurship.",
    "Negotiation techniques."
  ]

  const DefaultExperiences := [
    WorkExperience("Global Solutions Inc.", "Senior Full Stack Developer",
      YearNumber(2022), YearText("present"), [
        "Architected scalable microservices using Node.js and AWS.",
        "Led a team of 5 developers in delivering a high-traffic fintech platform.",
        "Optimized database queries reducing latency by 40%."
      ]),
    WorkExperience("Innovate AI", "Junior Developer",
      YearNumber(2020), YearNumber(2022), [
        "Developed and maintained responsive React components.",
        "Integrated third-party APIs for real-time data processing.",
        "Collaborated with UX designers to improve accessibility."
      ])
  ]

  const DefaultProjects := [
    Project("Alpha-Ed - ScriptMarka", "scriptmarka.com",
      ["ReactJs", "NodeJs", "Firebase", "OCR", "NLP"],
      "AI-driven EdTech tool for automated grading of handwritten descriptive exam scripts.",
      [
        "Engineered a Semantic Grading Model using NLP.",
        "Built end-to-end OCR pipelines for handwritten digitizing.",
        "Architected secure backend infrastructure on Firebase."
      ],
      ["Founder", "CTO"], "Jan 2024", None)
  ]

  const DefaultContact := ContactInfo(
    facebook := "https://facebook.com/johndoe",
    linkedin := "https://linkedin.com/in/johndoe",
    github := "https://github.com/johndoe",
    phoneNumber := "+1 234 567 890",
    email := "john.doe@example.com",
    website := "johndoe.dev")

  const DefaultSettings := AppSettings(
    theme := Minimal,
    darkMode := true,
    adminPassword := None,
    resumeUrl := None,
    visitCount := [],
    sections := Some(DefaultSections),
    sectionTitles := Some(DefaultTitles),
    customColors := Some(DefaultColors))

  /** `INITIAL_DATA`: first-run state (no password), no visits, no resume,
      the minimal theme in dark mode, the default sections, titles,
      colours and skills. */
  function InitialData(): (d: PortfolioData)
    ensures d.settings.adminPassword == None
    ensures d.settings.visitCount == [] && d.settings.resumeUrl == None
    ensures d.settings.theme == Minimal && d.settings.darkMode
    ensures d.settings.sections == Some(DefaultSections)
    ensures d.settings.sectionTitles == Some(DefaultTitles)
    ensures d.settings.customColors == Some(DefaultColors)
    ensures d.programmingSkills == DefaultSkills
  {
    PortfolioData(DefaultBio, DefaultSkills, DefaultEducation, DefaultCourses, DefaultSoftSkills,
                  DefaultExperiences, DefaultProjects, DefaultContact, DefaultSettings)
  }

  /** The five default sections have distinct orders 1 to 5 and are all
      visible. */
  lemma DefaultSectionsOrdered()
    ensures |DefaultSections| == 5 && Sections.DistinctOrders(DefaultSections)
    ensures forall k :: 0 <= k < 5 ==> DefaultSections[k].order == k + 1 && DefaultSections[k].visible
  {
  }

  /** Every default proficiency lies within 0 to 100. */
  lemma DefaultSkillsInRange()
    ensures ProficiencyInRange(DefaultSkills.languages)
    ensures ProficiencyInRange(DefaultSkills.frameworks)
    ensures ProficiencyInRange(DefaultSkills.tools)
  {
  }

  /** Both colour modes are present and every slot is empty. */
  lemma DefaultColorsEmpty()
    ensures DefaultColors.Get(Light) == Some(EmptyColorSet) && DefaultColors.Get(Dark) == Some(EmptyColorSet)
    ensures forall slot: ColorSlot :: EmptyColorSet.Get(slot) == Some("")
  {
  }
}
