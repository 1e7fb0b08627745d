/**
 * The resume records the viewer renders. Every Swift optional is an
 * `Option`; the `id` UUIDs of `Experience`, `Project` and `Skill` are never
 * displayed and are left out.
 */
module ResumeModels {
  import opened Wrappers

  datatype Resume = Resume(
    name: string,
    contact: Contact,
    profile: string,
    experience: seq<Experience>,
    personalProjects: seq<Project>,
    openSourceContributions: seq<Project>,
    skills: Skills,
    education: seq<Education>)

  datatype Contact = Contact(
    website: Option<string>,
    phone: Option<string>,
    linkedin: Option<string>,
    github: Option<string>,
    email: Option<string>)

  datatype Experience = Experience(
    company: string,
    location: string,
    title: string,
    startDate: string,
    endDate: Option<string>,
    responsibilities: seq<string>,
    appStoreUrl: Option<string>,
    mediaUrls: Option<seq<string>>)

  /** Used both for personal projects and for open-source contributions. */
  datatype Project = Project(
    name: string,
    description: Option<string>,
    appStoreLink: Option<string>,
    links: Option<seq<Link>>,
    technologies: Option<seq<string>>)

  datatype Link = Link(title: string, url: string)

  datatype Skills = Skills(programmingLanguages: seq<Skill>, sdksApis: seq<Skill>)

  datatype Skill = Skill(name: string, rating: int)

  datatype Education = Education(
    institution: string,
    degree: string,
    graduationYear: Option<string>,
    details: Option<string>)

  /** What the resume loader hands back: the record, or why it could not produce one. */
  datatype LoadError = FileNotFound | ParsingError(message: string)
  datatype LoadResult = Loaded(resume: Resume) | LoadFailed(error: LoadError)
}
