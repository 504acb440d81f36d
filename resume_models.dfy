/** The structured résumé the language model returns and the candidate
    summary the workflow collects (app/services/workflow/extraction_models.py).
    `ProfessionalSummary`, `Certification`, `PersonalProject` and
    `CandidateInfo` are used by the renderer and the workflow but are not
    defined in that file; they are given here the fields their uses read. */
module ResumeModels {
  import opened Common

  datatype Experience = Experience(
    company: string,
    jobTitle: string,
    startDate: string,
    endDate: Option<string>,
    bulletPoints: seq<string>,
    location: string)

  datatype Skills = Skills(
    technicalSkills: seq<string>,
    softSkills: seq<string>,
    languages: seq<string>)

  datatype Education = Education(
    institution: string,
    degree: string,
    graduationYear: string,
    location: string)

  datatype ProfessionalSummary = ProfessionalSummary(summary: string)

  datatype Certification = Certification(
    name: string,
    issuer: string,
    date: string,
    expiryDate: Option<string>,
    credentialId: Option<string>,
    credentialUrl: Option<string>)

  datatype PersonalProject = PersonalProject(
    name: string,
    url: Option<string>,
    description: string,
    technologies: seq<string>,
    highlights: seq<string>)

  datatype Resume = Resume(
    name: string,
    email: string,
    phone: string,
    address: string,
    linkedIn: Option<string>,
    github: Option<string>,
    experience: seq<Experience>,
    skills: Skills,
    education: seq<Education>,
    considerations: Option<string>,
    professionalSummary: Option<ProfessionalSummary>,
    certifications: Option<seq<Certification>>,
    personalProjects: Option<seq<PersonalProject>>)

  /** The six answers the retrieval queries give about the candidate, as text. */
  datatype CandidateInfo = CandidateInfo(
    personalInfo: string,
    skills: string,
    experiences: string,
    education: string,
    certifications: string,
    personalProjects: string)
}
