/** The portfolio aggregate (types.ts). Every interface is a value
    type; `T | null` and optional properties are `Option<T>`; JavaScript
    numbers are `int`, except the grade point average, which is `real`. */
module Types {
  import opened Wrappers

  datatype Skill = Skill(name: string, years: int, proficiency: int)

  datatype ProgrammingSkills = ProgrammingSkills(
    languages: seq<Skill>,
    frameworks: seq<Skill>,
    tools: seq<Skill>)

  /** `class` is a reserved word here, so the degree class is `degreeClass`. */
  datatype Education = Education(
    school: string,
    course: string,
    year: string,
    cgpa: Option<real>,
    degreeClass: Option<string>)

  datatype Certification = Certification(
    certification: string,
    institution: string,
    year: string,
    skills: seq<string>)

  /** `number | string`: a year such as 2022 or a word such as "present". */
  datatype YearValue = YearNumber(n: int) | YearText(text: string)

  datatype WorkExperience = WorkExperience(
    place: string,
    position: string,
    startYear: YearValue,
    endYear: YearValue,
    duties: seq<string>)

  datatype Project = Project(
    name: string,
    website: string,
    techStack: seq<string>,
    description: string,
    duties: seq<string>,
    roles: seq<string>,
    startDate: string,
    endDate: Option<string>)

  datatype ContactInfo = ContactInfo(
    facebook: string,
    linkedin: string,
    github: string,
    phoneNumber: string,
    email: string,
    website: string)

  /** `'minimal' | 'cyberpunk' | 'elegant'`. */
  datatype ThemeType = Minimal | Cyberpunk | Elegant {
    /** The literal the union type is made of. */
    function Name(): string {
      match this
      case Minimal => "minimal"
      case Cyberpunk => "cyberpunk"
      case Elegant => "elegant"
    }
  }

  datatype SectionConfig = SectionConfig(id: string, name: string, visible: bool, order: int)

  /** The six optional custom section headings. */
  datatype SectionTitles = SectionTitles(
    experience: Option<string>,
    education: Option<string>,
    certifications: Option<string>,
    projects: Option<string>,
    skills: Option<string>,
    contact: Option<string>)

  /** The keys of `sectionTitles`. */
  datatype TitleKey = ExperienceTitle | EducationTitle | CertificationsTitle
                    | ProjectsTitle | SkillsTitle | ContactTitle

  /** The five colour slots of one mode; each is optional. */
  datatype ColorSet = ColorSet(
    primary: Option<string>,
    bgMain: Option<string>,
    textMain: Option<string>,
    cardBg: Option<string>,
    border: Option<string>)
  {
    /** `colors[slot]`. */
    function Get(slot: ColorSlot): Option<string> {
      match slot
      case Primary => primary
      case BgMain => bgMain
      case TextMain => textMain
      case CardBg => cardBg
      case Border => border
    }
  }

  datatype ColorSlot = Primary | BgMain | TextMain | CardBg | Border

  /** The two colour modes. */
  datatype Mode = Light | Dark

  /** `customColors`: one optional override set per mode. */
  datatype CustomColors = CustomColors(light: Option<ColorSet>, dark: Option<ColorSet>) {
    /** `customColors[mode]`. */
    function Get(mode: Mode): Option<ColorSet> {
      match mode
      case Light => light
      case Dark => dark
    }
  }

  /** One `[date, count]` pair of `visitCount`. */
  datatype VisitEntry = VisitEntry(date: string, count: int)

  /** `visitCount`, as the JavaScript object it is: its entries in the
      order the object enumerates them. */
  type VisitLog = seq<VisitEntry>

  /** `sections` is declared as required, but every reader falls back to
      `[]` and the admin panel fills it in when it is missing, so it is
      optional here. */
  datatype AppSettings = AppSettings(
    theme: ThemeType,
    darkMode: bool,
    adminPassword: Option<string>,
    resumeUrl: Option<string>,
    visitCount: VisitLog,
    sections: Option<seq<SectionConfig>>,
    sectionTitles: Option<SectionTitles>,
    customColors: Option<CustomColors>)

  datatype Bio = Bio(name: string, role: string, description: string, avatarUrl: string)

  datatype PortfolioData = PortfolioData(
    bio: Bio,
    programmingSkills: ProgrammingSkills,
    education: seq<Education>,
    professionalCourses: seq<Certification>,
    softSkills: seq<string>,
    workExperiences: seq<WorkExperience>,
    projects: seq<Project>,
    contactInfo: ContactInfo,
    settings: AppSettings)

  /** A colour set with every slot present and empty. */
  const EmptyColorSet := ColorSet(Some(""), Some(""), Some(""), Some(""), Some(""))
}
