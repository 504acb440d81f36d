/** The application's résumé renderer (app/services/workflow/latex_generator.py).
    The generator owns a LaTeX document and its section builders append to
    it. The document body is modelled as a sequence of items in which a
    section is a `SectionStart` marker, the items appended inside its `with`
    block, and a `SectionEnd` marker: the order in which the nested document
    tree is written out. */
module AppLatex {
  import opened Common
  import opened ResumeModels
  import opened LatexEscape

  datatype Package = Package(name: string, options: seq<string>)

  datatype Item = Raw(text: string) | SectionStart(title: string) | SectionEnd

  /** What the document holds: its package list and its body. */
  datatype Document = Document(packages: seq<Package>, body: seq<Item>)

  /** The section titles and labels of one language. */
  datatype Texts = Texts(
    professionalSummary: string,
    experience: string,
    skills: string,
    certifications: string,
    personalProjects: string,
    education: string,
    technical: string,
    languages: string,
    softSkills: string,
    credentialId: string,
    technologies: string)

  const EnglishTexts := Texts(
    "Professional Summary", "Experience", "Skills", "Professional Certifications",
    "Personal Projects", "Education",
    "Technical:", "Languages:", "Soft Skills:", "Credential ID:", "Technologies:")

  const PortugueseTexts := Texts(
    "Resumo Profissional", "Experiência", "Habilidades", "Certificados",
    "Projetos Pessoais", "Educação",
    "Técnicas:", "Idiomas:", "Habilidades Comportamentais:", "ID da Credencial:", "Tecnologias:")

  /** The language table, keyed by language code. */
  const LanguageTexts: map<string, Texts> := map["en" := EnglishTexts, "pt" := PortugueseTexts]

  /** The texts for a language code, falling back to English. */
  function TextsFor(language: string): (t: Texts)
    ensures language in LanguageTexts ==> t == LanguageTexts[language]
    ensures language !in LanguageTexts ==> t == LanguageTexts["en"]
  {
    if language in LanguageTexts then LanguageTexts[language] else LanguageTexts["en"]
  }

  /** The babel options: Brazilian Portuguese only for "pt". */
  function BabelOptions(language: string): seq<string>
  {
    if language == "pt" then ["brazilian", "english"] else ["english"]
  }

  function PackagesFor(language: string): seq<Package>
  {
    [Package("inputenc", ["utf8"]), Package("fontenc", ["T1"]),
     Package("babel", BabelOptions(language)),
     Package("parskip", []), Package("hyperref", []), Package("titlesec", [])]
  }

  /** The set-up commands every document starts with. */
  const Preamble: seq<Item> := [
    Raw(@"\pagestyle{empty}"),
    Raw(@"\setcounter{secnumdepth}{0}"),
    Raw(@"\hypersetup{colorlinks=true,linkcolor=black,urlcolor=black,citecolor=black}"),
    Raw(@"\titleformat{\section}{\Large\bfseries}{}{0em}{}[\titlerule\vspace{0.5ex}]")
  ]

  /** A section as written out: its start marker, what was appended inside
      its `with` block, and its end marker. */
  function Section(title: string, body: seq<Item>): seq<Item>
  {
    [SectionStart(title)] + body + [SectionEnd]
  }

  /** Shorthand for the application escaping of a plain string. */
  function Esc(text: string): string
  {
    AppEscape(Some(text))
  }

  const ContactSeparator: string := @" {\textbullet} "

  /** The contact entries: e-mail always, then phone, LinkedIn and GitHub
      when present. */
  function ContactParts(resume: Resume): seq<string>
  {
    [EmailPart(resume.email)]
    + PhonePart(resume.phone) + LinkPart(resume.linkedIn) + LinkPart(resume.github)
  }

  /** The e-mail entry, a mailto link; the address is not escaped. */
  function EmailPart(email: string): string
  {
    @"Email: \href{mailto:" + email + "}{" + email + "}"
  }

  /** The phone entry, escaped, when the phone is not empty. */
  function PhonePart(phone: string): seq<string>
  {
    if phone != "" then ["Phone: " + Esc(phone)] else []
  }

  /** A profile link, shown as its own address, when present. */
  function LinkPart(url: Option<string>): seq<string>
  {
    if Truthy(url) then [@"\href{" + url.value + "}{" + url.value + "}"] else []
  }

  function PersonalInfoItems(resume: Resume): seq<Item>
  {
    [Raw(@"\begin{center}"),
     Raw(@"{\LARGE \textbf{" + Esc(resume.name) + "}}"),
     Raw(@"\\ [0.1cm]"),
     Raw(Esc(resume.address)),
     Raw(@"\\ [0.1cm]"),
     Raw(Join(ContactParts(resume), ContactSeparator)),
     Raw(@"\end{center}"),
     Raw(@"\vspace{0.5cm}")]
  }

  /** One `\item` line per text, in order. */
  function ItemLines(texts: seq<string>): (r: seq<Item>)
    ensures |r| == |texts|
    ensures forall i :: 0 <= i < |texts| ==> r[i] == Raw(@"\item " + Esc(texts[i]))
  {
    if texts == [] then [] else ItemLines(texts[..|texts| - 1]) + [Raw(@"\item " + Esc(texts[|texts| - 1]))]
  }

  /** An `itemize` environment with one `\item` line per text. */
  function Itemize(texts: seq<string>): (r: seq<Item>)
  {
    [Raw(@"\begin{itemize}")] + ItemLines(texts) + [Raw(@"\end{itemize}")]
  }

  function ExperienceEntry(exp: Experience): seq<Item>
  {
    [Raw(@"\subsection*{" + @"\textbf{" + Esc(exp.company) + @"} \hfill " + exp.location + "}"),
     Raw(@"\textit{" + Esc(exp.jobTitle) + @" \hfill " + Esc(DateRange(exp.startDate, exp.endDate)) + "}")]
    + Itemize(exp.bulletPoints)
    + [Raw(@"\vspace{0.2cm}")]
  }

  function ExperienceEntries(exps: seq<Experience>): seq<Item>
  {
    if exps == [] then [] else ExperienceEntries(exps[..|exps| - 1]) + ExperienceEntry(exps[|exps| - 1])
  }

  lemma ExperienceEntriesSnoc(exps: seq<Experience>, i: nat)
    requires i < |exps|
    ensures ExperienceEntries(exps[..i + 1]) == ExperienceEntries(exps[..i]) + ExperienceEntry(exps[i])
  {
    assert exps[..i + 1][..i] == exps[..i];
  }

  function ExperienceItems(texts: Texts, exps: seq<Experience>): seq<Item>
  {
    if exps == [] then [] else Section(texts.experience, ExperienceEntries(exps))
  }

  /** A skills line: the label, then the individually escaped skills joined
      by ", ". */
  function SkillLine(caption: string, skills: seq<string>): Item
  {
    Raw(@"\item \textbf{" + caption + "} " + Join(AppEscapeEach(skills), ", "))
  }

  /** The skills line for a category, omitted when it has no skills. */
  function SkillLines(caption: string, skills: seq<string>): seq<Item>
  {
    if skills != [] then [SkillLine(caption, skills)] else []
  }

  function SkillsItems(texts: Texts, skills: Skills): seq<Item>
  {
    Section(texts.skills, SkillsBody(texts, skills))
  }

  /** The skills itemize: a line per non-empty category, technical skills,
      then languages, then soft skills. */
  function SkillsBody(texts: Texts, skills: Skills): seq<Item>
  {
    [Raw(@"\begin{itemize}")]
    + SkillLines(texts.technical, skills.technicalSkills)
    + SkillLines(texts.languages, skills.languages)
    + SkillLines(texts.softSkills, skills.softSkills)
    + [Raw(@"\end{itemize}")]
  }

  function SummaryItems(texts: Texts, summary: Option<ProfessionalSummary>): seq<Item>
  {
    if summary.None? then []
    else Section(texts.professionalSummary, [Raw(Esc(summary.value.summary)), Raw(@"\vspace{0.3cm}")])
  }

  function CertificationEntry(texts: Texts, cert: Certification): seq<Item>
  {
    [Raw(@"\subsection*{" + @"\textbf{" + Esc(cert.name) + @"} \hfill " + Esc(cert.issuer) + "}"),
     Raw(@"\textit{" + Esc(DateRange(cert.date, cert.expiryDate)) + "}")]
    + CredentialLines(texts, cert)
    + [Raw(@"\vspace{0.2cm}")]
  }

  /** The credential line, followed by a verification link when there is a
      URL; nothing without a credential id. */
  function CredentialLines(texts: Texts, cert: Certification): seq<Item>
  {
    if Truthy(cert.credentialId) then
      [Raw(texts.credentialId + " " + Esc(cert.credentialId.value))] + VerifyLines(cert.credentialUrl)
    else []
  }

  function VerifyLines(url: Option<string>): seq<Item>
  {
    if Truthy(url) then [Raw(@" (\href{" + url.value + "}{Verify})")] else []
  }

  function CertificationEntries(texts: Texts, certs: seq<Certification>): seq<Item>
  {
    if certs == [] then [] else CertificationEntries(texts, certs[..|certs| - 1]) + CertificationEntry(texts, certs[|certs| - 1])
  }

  lemma CertificationEntriesSnoc(texts: Texts, certs: seq<Certification>, i: nat)
    requires i < |certs|
    ensures CertificationEntries(texts, certs[..i + 1]) == CertificationEntries(texts, certs[..i]) + CertificationEntry(texts, certs[i])
  {
    assert certs[..i + 1][..i] == certs[..i];
  }

  function CertificationItems(texts: Texts, certs: Option<seq<Certification>>): seq<Item>
  {
    if certs.None? || certs.value == [] then []
    else Section(texts.certifications, CertificationEntries(texts, certs.value))
  }

  /** A project's title: its escaped name, linked when it has a URL. */
  function ProjectTitle(project: PersonalProject): string
  {
    if Truthy(project.url) then @"\href{" + project.url.value + "}{" + Esc(project.name) + "}" else Esc(project.name)
  }

  function ProjectEntry(texts: Texts, project: PersonalProject): seq<Item>
  {
    [Raw(@"\subsection*{\textbf{" + ProjectTitle(project) + "}}"),
     Raw(Esc(project.description)),
     Raw(@"\vspace{0.1cm}"),
     Raw(@"\textit{" + texts.technologies + "} " + Esc(Join(project.technologies, ", ")))]
    + (if project.highlights != [] then Itemize(project.highlights) else [])
    + [Raw(@"\vspace{0.2cm}")]
  }

  function ProjectEntries(texts: Texts, projects: seq<PersonalProject>): seq<Item>
  {
    if projects == [] then [] else ProjectEntries(texts, projects[..|projects| - 1]) + ProjectEntry(texts, projects[|projects| - 1])
  }

  lemma ProjectEntriesSnoc(texts: Texts, projects: seq<PersonalProject>, i: nat)
    requires i < |projects|
    ensures ProjectEntries(texts, projects[..i + 1]) == ProjectEntries(texts, projects[..i]) + ProjectEntry(texts, projects[i])
  {
    assert projects[..i + 1][..i] == projects[..i];
  }

  function ProjectItems(texts: Texts, projects: Option<seq<PersonalProject>>): seq<Item>
  {
    if projects.None? || projects.value == [] then []
    else Section(texts.personalProjects, ProjectEntries(texts, projects.value))
  }

  function EducationEntry(edu: Education): seq<Item>
  {
    [Raw(@"\subsection*{" + @"\textbf{" + Esc(edu.institution) + @"} \hfill " + edu.location + "}"),
     Raw(@"\textit{" + Esc(edu.degree) + @" \hfill " + Esc(edu.graduationYear) + "}"),
     Raw(@"\vspace{0.2cm}")]
  }

  function EducationEntries(edus: seq<Education>): seq<Item>
  {
    if edus == [] then [] else EducationEntries(edus[..|edus| - 1]) + EducationEntry(edus[|edus| - 1])
  }

  lemma EducationEntriesSnoc(edus: seq<Education>, i: nat)
    requires i < |edus|
    ensures EducationEntries(edus[..i + 1]) == EducationEntries(edus[..i]) + EducationEntry(edus[i])
  {
    assert edus[..i + 1][..i] == edus[..i];
  }

  function EducationItems(texts: Texts, edus: seq<Education>): seq<Item>
  {
    if edus == [] then [] else Section(texts.education, EducationEntries(edus))
  }

  /** Everything `generate_latex_doc` appends for one résumé, in order. */
  function ResumeItems(texts: Texts, resume: Resume): seq<Item>
  {
    PersonalInfoItems(resume)
    + SummaryItems(texts, resume.professionalSummary)
    + ExperienceItems(texts, resume.experience)
    + SkillsItems(texts, resume.skills)
    + CertificationItems(texts, resume.certifications)
    + ProjectItems(texts, resume.personalProjects)
    + EducationItems(texts, resume.education)
  }

  /** The document a fresh generator for `language` holds after rendering
      `resume`. */
  function Rendered(language: string, resume: Resume): Document
  {
    Document(PackagesFor(language), Preamble + ResumeItems(TextsFor(language), resume))
  }

  /** The titles of the sections a body opens, in order. */
  function SectionTitles(items: seq<Item>): seq<string>
  {
    if items == [] then []
    else (if items[0].SectionStart? then [items[0].title] else []) + SectionTitles(items[1..])
  }

  lemma {:induction false} SectionTitlesAppend(a: seq<Item>, b: seq<Item>)
    ensures SectionTitles(a + b) == SectionTitles(a) + SectionTitles(b)
  {
    if a != [] {
      var head := if a[0].SectionStart? then [a[0].title] else [];
      assert (a + b)[0] == a[0];
      assert (a + b)[1..] == a[1..] + b;
      SectionTitlesAppend(a[1..], b);
      AppendAssoc(head, SectionTitles(a[1..]), SectionTitles(b));
    } else {
      assert a + b == b;
    }
  }

  /** The titles of seven consecutive runs are the titles of each in turn. */
  lemma SevenTitles(a: seq<Item>, b: seq<Item>, c: seq<Item>, d: seq<Item>, e: seq<Item>, f: seq<Item>, g: seq<Item>)
    ensures SectionTitles(a + b + c + d + e + f + g) ==
      SectionTitles(a) + SectionTitles(b) + SectionTitles(c) + SectionTitles(d)
      + SectionTitles(e) + SectionTitles(f) + SectionTitles(g)
  {
    SectionTitlesAppend(a + b + c + d + e + f, g);
    SectionTitlesAppend(a + b + c + d + e, f);
    SectionTitlesAppend(a + b + c + d, e);
    SectionTitlesAppend(a + b + c, d);
    SectionTitlesAppend(a + b, c);
    SectionTitlesAppend(a, b);
  }

  /** A run of items that opens no section. */
  predicate NoSections(items: seq<Item>)
  {
    forall i :: 0 <= i < |items| ==> !items[i].SectionStart?
  }

  lemma {:induction false} NoSectionsNoTitles(items: seq<Item>)
    requires NoSections(items)
    ensures SectionTitles(items) == []
  {
    if items != [] {
      NoSectionsNoTitles(items[1..]);
    }
  }

  lemma NoSectionsAppend(a: seq<Item>, b: seq<Item>)
    requires NoSections(a) && NoSections(b)
    ensures NoSections(a + b)
  {
  }

  lemma ExperienceEntryNoSections(exp: Experience)
    ensures NoSections(ExperienceEntry(exp))
  {
    var lines := ItemLines(exp.bulletPoints);
    assert NoSections(lines);
  }

  lemma CertificationEntryNoSections(texts: Texts, cert: Certification)
    ensures NoSections(CertificationEntry(texts, cert))
  {
  }

  lemma ProjectEntryNoSections(texts: Texts, project: PersonalProject)
    ensures NoSections(ProjectEntry(texts, project))
  {
    var lines := ItemLines(project.highlights);
    assert NoSections(lines);
  }

  lemma {:induction false} ExperienceEntriesNoSections(exps: seq<Experience>)
    ensures NoSections(ExperienceEntries(exps))
  {
    if exps != [] {
      ExperienceEntriesNoSections(exps[..|exps| - 1]);
      ExperienceEntryNoSections(exps[|exps| - 1]);
      NoSectionsAppend(ExperienceEntries(exps[..|exps| - 1]), ExperienceEntry(exps[|exps| - 1]));
    }
  }

  lemma {:induction false} CertificationEntriesNoSections(texts: Texts, certs: seq<Certification>)
    ensures NoSections(CertificationEntries(texts, certs))
  {
    if certs != [] {
      CertificationEntriesNoSections(texts, certs[..|certs| - 1]);
      CertificationEntryNoSections(texts, certs[|certs| - 1]);
      NoSectionsAppend(CertificationEntries(texts, certs[..|certs| - 1]), CertificationEntry(texts, certs[|certs| - 1]));
    }
  }

  lemma {:induction false} ProjectEntriesNoSections(texts: Texts, projects: seq<PersonalProject>)
    ensures NoSections(ProjectEntries(texts, projects))
  {
    if projects != [] {
      ProjectEntriesNoSections(texts, projects[..|projects| - 1]);
      ProjectEntryNoSections(texts, projects[|projects| - 1]);
      NoSectionsAppend(ProjectEntries(texts, projects[..|projects| - 1]), ProjectEntry(texts, projects[|projects| - 1]));
    }
  }

  lemma {:induction false} EducationEntriesNoSections(edus: seq<Education>)
    ensures NoSections(EducationEntries(edus))
  {
    if edus != [] {
      EducationEntriesNoSections(edus[..|edus| - 1]);
      NoSectionsAppend(EducationEntries(edus[..|edus| - 1]), EducationEntry(edus[|edus| - 1]));
    }
  }

  /** A section whose body opens no section contributes its own title only. */
  lemma SectionTitle(title: string, body: seq<Item>)
    requires NoSections(body)
    ensures SectionTitles(Section(title, body)) == [title]
  {
    SectionTitlesAppend([SectionStart(title)] + body, [SectionEnd]);
    SectionTitlesAppend([SectionStart(title)], body);
    NoSectionsNoTitles(body);
    NoSectionsNoTitles([SectionEnd]);
  }

  lemma SummaryTitles(texts: Texts, summary: Option<ProfessionalSummary>)
    ensures SectionTitles(SummaryItems(texts, summary)) ==
      if summary.Some? then [texts.professionalSummary] else []
  {
    if summary.Some? {
      SectionTitle(texts.professionalSummary, [Raw(Esc(summary.value.summary)), Raw(@"\vspace{0.3cm}")]);
    }
  }

  lemma ExperienceTitles(texts: Texts, exps: seq<Experience>)
    ensures SectionTitles(ExperienceItems(texts, exps)) == if exps != [] then [texts.experience] else []
  {
    if exps != [] {
      ExperienceEntriesNoSections(exps);
      SectionTitle(texts.experience, ExperienceEntries(exps));
    }
  }

  lemma SkillsTitles(texts: Texts, skills: Skills)
    ensures SectionTitles(SkillsItems(texts, skills)) == [texts.skills]
  {
    SectionTitle(texts.skills, SkillsBody(texts, skills));
  }

  lemma CertificationTitles(texts: Texts, certs: Option<seq<Certification>>)
    ensures SectionTitles(CertificationItems(texts, certs)) ==
      if certs.Some? && certs.value != [] then [texts.certifications] else []
  {
    if certs.Some? && certs.value != [] {
      CertificationEntriesNoSections(texts, certs.value);
      SectionTitle(texts.certifications, CertificationEntries(texts, certs.value));
    }
  }

  lemma ProjectTitles(texts: Texts, projects: Option<seq<PersonalProject>>)
    ensures SectionTitles(ProjectItems(texts, projects)) ==
      if projects.Some? && projects.value != [] then [texts.personalProjects] else []
  {
    if projects.Some? && projects.value != [] {
      ProjectEntriesNoSections(texts, projects.value);
      SectionTitle(texts.personalProjects, ProjectEntries(texts, projects.value));
    }
  }

  lemma EducationTitles(texts: Texts, edus: seq<Education>)
    ensures SectionTitles(EducationItems(texts, edus)) == if edus != [] then [texts.education] else []
  {
    if edus != [] {
      EducationEntriesNoSections(edus);
      SectionTitle(texts.education, EducationEntries(edus));
    }
  }

  /** The sections of a rendered résumé, in order: the summary when there is
      one, experience when there is any, skills always, certifications and
      projects when present and non-empty, education when there is any. The
      header opens no section. */
  lemma ResumeSectionOrder(texts: Texts, resume: Resume)
    ensures SectionTitles(ResumeItems(texts, resume)) ==
      (if resume.professionalSummary.Some? then [texts.professionalSummary] else [])
      + (if resume.experience != [] then [texts.experience] else [])
      + [texts.skills]
      + (if resume.certifications.Some? && resume.certifications.value != [] then [texts.certifications] else [])
      + (if resume.personalProjects.Some? && resume.personalProjects.value != [] then [texts.personalProjects] else [])
      + (if resume.education != [] then [texts.education] else [])
  {
    ResumeTitlesByPart(texts, resume);
    HeaderTitles(resume);
    assert SectionTitles(PersonalInfoItems(resume)) + SectionTitles(SummaryItems(texts, resume.professionalSummary))
        == SectionTitles(SummaryItems(texts, resume.professionalSummary));
    SummaryTitles(texts, resume.professionalSummary);
    ExperienceTitles(texts, resume.experience);
    SkillsTitles(texts, resume.skills);
    CertificationTitles(texts, resume.certifications);
    ProjectTitles(texts, resume.personalProjects);
    EducationTitles(texts, resume.education);
  }

  lemma ResumeTitlesByPart(texts: Texts, resume: Resume)
    ensures SectionTitles(ResumeItems(texts, resume)) ==
      SectionTitles(PersonalInfoItems(resume))
      + SectionTitles(SummaryItems(texts, resume.professionalSummary))
      + SectionTitles(ExperienceItems(texts, resume.experience))
      + SectionTitles(SkillsItems(texts, resume.skills))
      + SectionTitles(CertificationItems(texts, resume.certifications))
      + SectionTitles(ProjectItems(texts, resume.personalProjects))
      + SectionTitles(EducationItems(texts, resume.education))
  {
    SevenTitles(PersonalInfoItems(resume), SummaryItems(texts, resume.professionalSummary),
      ExperienceItems(texts, resume.experience), SkillsItems(texts, resume.skills),
      CertificationItems(texts, resume.certifications), ProjectItems(texts, resume.personalProjects),
      EducationItems(texts, resume.education));
  }

  /** The header opens no section. */
  lemma HeaderTitles(resume: Resume)
    ensures SectionTitles(PersonalInfoItems(resume)) == []
  {
    NoSectionsNoTitles(PersonalInfoItems(resume));
  }

  /** A language without a table of its own renders exactly as English. */
  lemma UnknownLanguageRendersEnglish(language: string, resume: Resume)
    requires language !in LanguageTexts
    ensures Rendered(language, resume) == Rendered("en", resume)
  {
  }

  /** Brazilian hyphenation is loaded exactly for "pt". */
  lemma BabelBrazilianOnlyForPt(language: string)
    ensures Package("babel", ["brazilian", "english"]) in PackagesFor(language) <==> language == "pt"
  {
    if language != "pt" {
      assert PackagesFor(language)[2] != Package("babel", ["brazilian", "english"]);
    }
  }

  /** A skills line escapes each skill and joins them with ", ": the same
      text as escaping the joined list, as the project line does with its
      technologies. */
  lemma SkillLineEscapesJoined(caption: string, skills: seq<string>)
    ensures SkillLine(caption, skills) == Raw(@"\item \textbf{" + caption + "} " + Esc(Join(skills, ", ")))
  {
    AppEscapeJoin(skills, ", ");
  }

  /** `sep.join` starts with its first item. */
  lemma JoinStartsWithFirst(items: seq<string>, sep: string)
    requires items != []
    ensures items[0] <= Join(items, sep)
  {
    if |items| > 1 {
      assert Join(items, sep) == items[0] + (sep + Join(items[1..], sep));
    }
  }

  /** The contact line leads with the e-mail link and holds one entry per
      present phone, LinkedIn and GitHub value. */
  lemma ContactLineEmailFirst(resume: Resume)
    ensures EmailPart(resume.email) <= Join(ContactParts(resume), ContactSeparator)
    ensures |ContactParts(resume)| ==
      1 + |PhonePart(resume.phone)| + |LinkPart(resume.linkedIn)| + |LinkPart(resume.github)|
    ensures |PhonePart(resume.phone)| == (if resume.phone != "" then 1 else 0)
    ensures |LinkPart(resume.linkedIn)| == (if Truthy(resume.linkedIn) then 1 else 0)
    ensures |LinkPart(resume.github)| == (if Truthy(resume.github) then 1 else 0)
  {
    JoinStartsWithFirst(ContactParts(resume), ContactSeparator);
  }

  /** `", ".join` of the individually escaped skills. */
  method JoinEscaped(skills: seq<string>) returns (r: string)
    ensures r == Join(AppEscapeEach(skills), ", ")
  {
    var escaped: seq<string> := [];
    var i := 0;
    while i < |skills|
      invariant 0 <= i <= |skills|
      invariant |escaped| == i
      invariant forall k :: 0 <= k < i ==> escaped[k] == AppEscape(Some(skills[k]))
    {
      var e := AppEscapeLatex(Some(skills[i]));
      escaped := escaped + [e];
      i := i + 1;
    }
    assert escaped == AppEscapeEach(skills);
    r := Join(escaped, ", ");
  }

  class LaTeXGenerator {
    const language: string
    const texts: Texts
    const geometry: map<string, string>
    var packages: seq<Package>
    var doc: seq<Item>

    /** A generator for `language`: a document with a 1cm page margin, the
        packages, with babel options chosen by language, and the set-up
        commands. */
    constructor(language: string)
      ensures this.language == language && texts == TextsFor(language)
      ensures geometry == map["margin" := "1cm"]
      ensures packages == PackagesFor(language) && doc == Preamble
    {
      this.language := language;
      texts := TextsFor(language);
      geometry := map["margin" := "1cm"];
      var packages := [Package("inputenc", ["utf8"]), Package("fontenc", ["T1"])];
      if language == "pt" {
        packages := packages + [Package("babel", ["brazilian", "english"])];
      } else {
        packages := packages + [Package("babel", ["english"])];
      }
      packages := packages + [Package("parskip", []), Package("hyperref", []), Package("titlesec", [])];
      this.packages := packages;
      doc := Preamble;
    }

    function Current(): Document
      reads this
    {
      Document(packages, doc)
    }

    method GeneratePersonalInfo(resume: Resume)
      modifies this
      ensures doc == old(doc) + PersonalInfoItems(resume) && packages == old(packages)
    {
      var parts := [@"Email: \href{mailto:" + resume.email + "}{" + resume.email + "}"];
      assert parts == [EmailPart(resume.email)];
      ghost var email := parts;
      if resume.phone != "" {
        var phone := AppEscapeLatex(Some(resume.phone));
        parts := parts + ["Phone: " + phone];
      }
      assert parts == email + PhonePart(resume.phone);
      if Truthy(resume.linkedIn) {
        parts := parts + [@"\href{" + resume.linkedIn.value + "}{" + resume.linkedIn.value + "}"];
      }
      assert parts == email + PhonePart(resume.phone) + LinkPart(resume.linkedIn);
      if Truthy(resume.github) {
        parts := parts + [@"\href{" + resume.github.value + "}{" + resume.github.value + "}"];
      }
      assert parts == ContactParts(resume);
      var name := AppEscapeLatex(Some(resume.name));
      var address := AppEscapeLatex(Some(resume.address));
      doc := doc + [Raw(@"\begin{center}"), Raw(@"{\LARGE \textbf{" + name + "}}"), Raw(@"\\ [0.1cm]"),
                    Raw(address), Raw(@"\\ [0.1cm]"), Raw(Join(parts, ContactSeparator)),
                    Raw(@"\end{center}"), Raw(@"\vspace{0.5cm}")];
    }

    /** Appends an `\item` line per text. */
    method AppendItemLines(lines: seq<string>)
      modifies this
      ensures doc == old(doc) + ItemLines(lines) && packages == old(packages)
    {
      var i := 0;
      while i < |lines|
        invariant 0 <= i <= |lines|
        invariant doc == old(doc) + ItemLines(lines[..i]) && packages == old(packages)
      {
        assert lines[..i + 1][..i] == lines[..i];
        var line := AppEscapeLatex(Some(lines[i]));
        AppendAssoc(old(doc), ItemLines(lines[..i]), [Raw(@"\item " + line)]);
        doc := doc + [Raw(@"\item " + line)];
        i := i + 1;
      }
      assert lines[..i] == lines;
    }

    /** Appends an `itemize` environment holding an `\item` line per text. */
    method AppendItemize(lines: seq<string>)
      modifies this
      ensures doc == old(doc) + Itemize(lines) && packages == old(packages)
    {
      doc := doc + [Raw(@"\begin{itemize}")];
      AppendAssoc(old(doc), [Raw(@"\begin{itemize}")], ItemLines(lines));
      AppendItemLines(lines);
      AppendAssoc(old(doc), [Raw(@"\begin{itemize}")] + ItemLines(lines), [Raw(@"\end{itemize}")]);
      doc := doc + [Raw(@"\end{itemize}")];
    }

    method AppendExperienceEntry(exp: Experience)
      modifies this
      ensures doc == old(doc) + ExperienceEntry(exp) && packages == old(packages)
    {
      var company := AppEscapeLatex(Some(exp.company));
      var jobTitle := AppEscapeLatex(Some(exp.jobTitle));
      var dateRange := exp.startDate;
      if Truthy(exp.endDate) {
        dateRange := dateRange + " - " + exp.endDate.value;
      }
      var dates := AppEscapeLatex(Some(dateRange));
      var heading := [Raw(@"\subsection*{" + @"\textbf{" + company + @"} \hfill " + exp.location + "}"),
                      Raw(@"\textit{" + jobTitle + @" \hfill " + dates + "}")];
      doc := doc + heading;
      ghost var written := heading;
      AppendAssoc(old(doc), written, Itemize(exp.bulletPoints));
      AppendItemize(exp.bulletPoints);
      written := written + Itemize(exp.bulletPoints);
      AppendAssoc(old(doc), written, [Raw(@"\vspace{0.2cm}")]);
      doc := doc + [Raw(@"\vspace{0.2cm}")];
    }

    method GenerateExperience(exps: seq<Experience>)
      modifies this
      ensures doc == old(doc) + ExperienceItems(texts, exps) && packages == old(packages)
    {
      if exps == [] {
        return;
      }
      doc := doc + [SectionStart(texts.experience)];
      var i := 0;
      while i < |exps|
        invariant 0 <= i <= |exps|
        invariant doc == old(doc) + [SectionStart(texts.experience)] + ExperienceEntries(exps[..i])
        invariant packages == old(packages)
      {
        ExperienceEntriesSnoc(exps, i);
        AppendAssoc(old(doc) + [SectionStart(texts.experience)], ExperienceEntries(exps[..i]), ExperienceEntry(exps[i]));
        AppendExperienceEntry(exps[i]);
        i := i + 1;
      }
      assert exps[..i] == exps;
      AppendAssoc(old(doc), [SectionStart(texts.experience)], ExperienceEntries(exps));
      AppendAssoc(old(doc), [SectionStart(texts.experience)] + ExperienceEntries(exps), [SectionEnd]);
      doc := doc + [SectionEnd];
    }

    /** Appends the line of one skills category when it has skills. */
    method AppendSkillLine(caption: string, skills: seq<string>)
      modifies this
      ensures doc == old(doc) + SkillLines(caption, skills) && packages == old(packages)
    {
      if skills != [] {
        var line := JoinEscaped(skills);
        doc := doc + [Raw(@"\item \textbf{" + caption + "} " + line)];
      } else {
        AppendNothing(doc);
      }
    }

    method GenerateSkills(skills: Skills)
      modifies this
      ensures doc == old(doc) + SkillsItems(texts, skills) && packages == old(packages)
    {
      doc := doc + [SectionStart(texts.skills)];
      ghost var start := doc;
      doc := doc + [Raw(@"\begin{itemize}")];
      ghost var written := [Raw(@"\begin{itemize}")];
      AppendAssoc(start, written, SkillLines(texts.technical, skills.technicalSkills));
      AppendSkillLine(texts.technical, skills.technicalSkills);
      written := written + SkillLines(texts.technical, skills.technicalSkills);
      AppendAssoc(start, written, SkillLines(texts.languages, skills.languages));
      AppendSkillLine(texts.languages, skills.languages);
      written := written + SkillLines(texts.languages, skills.languages);
      AppendAssoc(start, written, SkillLines(texts.softSkills, skills.softSkills));
      AppendSkillLine(texts.softSkills, skills.softSkills);
      written := written + SkillLines(texts.softSkills, skills.softSkills);
      AppendAssoc(start, written, [Raw(@"\end{itemize}")]);
      doc := doc + [Raw(@"\end{itemize}")];
      AppendAssoc(old(doc), [SectionStart(texts.skills)], SkillsBody(texts, skills));
      AppendAssoc(old(doc), [SectionStart(texts.skills)] + SkillsBody(texts, skills), [SectionEnd]);
      doc := doc + [SectionEnd];
    }

    method GenerateProfessionalSummary(summary: Option<ProfessionalSummary>)
      modifies this
      ensures doc == old(doc) + SummaryItems(texts, summary) && packages == old(packages)
    {
      if summary.None? {
        return;
      }
      var text := AppEscapeLatex(Some(summary.value.summary));
      doc := doc + [SectionStart(texts.professionalSummary), Raw(text), Raw(@"\vspace{0.3cm}"), SectionEnd];
    }

    method AppendCertificationEntry(cert: Certification)
      modifies this
      ensures doc == old(doc) + CertificationEntry(texts, cert) && packages == old(packages)
    {
      var name := AppEscapeLatex(Some(cert.name));
      var issuer := AppEscapeLatex(Some(cert.issuer));
      doc := doc + [Raw(@"\subsection*{" + @"\textbf{" + name + @"} \hfill " + issuer + "}")];
      var dateInfo := cert.date;
      if Truthy(cert.expiryDate) {
        dateInfo := dateInfo + " - " + cert.expiryDate.value;
      }
      var dates := AppEscapeLatex(Some(dateInfo));
      AppendAssoc(old(doc), [Raw(@"\subsection*{" + @"\textbf{" + name + @"} \hfill " + issuer + "}")], [Raw(@"\textit{" + dates + "}")]);
      doc := doc + [Raw(@"\textit{" + dates + "}")];
      ghost var written := [Raw(@"\subsection*{" + @"\textbf{" + name + @"} \hfill " + issuer + "}"), Raw(@"\textit{" + dates + "}")];
      assert doc == old(doc) + written;
      AppendAssoc(old(doc), written, CredentialLines(texts, cert));
      AppendNothing(old(doc) + written);
      if Truthy(cert.credentialId) {
        var id := AppEscapeLatex(cert.credentialId);
        doc := doc + [Raw(texts.credentialId + " " + id)];
        AppendAssoc(old(doc) + written, [Raw(texts.credentialId + " " + id)], VerifyLines(cert.credentialUrl));
        AppendNothing(doc);
        if Truthy(cert.credentialUrl) {
          doc := doc + [Raw(@" (\href{" + cert.credentialUrl.value + "}{Verify})")];
        }
      }
      written := written + CredentialLines(texts, cert);
      AppendAssoc(old(doc), written, [Raw(@"\vspace{0.2cm}")]);
      doc := doc + [Raw(@"\vspace{0.2cm}")];
    }

    method GenerateCertifications(certs: Option<seq<Certification>>)
      modifies this
      ensures doc == old(doc) + CertificationItems(texts, certs) && packages == old(packages)
    {
      if certs.None? || certs.value == [] {
        return;
      }
      var list := certs.value;
      doc := doc + [SectionStart(texts.certifications)];
      var i := 0;
      while i < |list|
        invariant 0 <= i <= |list|
        invariant doc == old(doc) + [SectionStart(texts.certifications)] + CertificationEntries(texts, list[..i])
        invariant packages == old(packages)
      {
        CertificationEntriesSnoc(texts, list, i);
        AppendAssoc(old(doc) + [SectionStart(texts.certifications)], CertificationEntries(texts, list[..i]), CertificationEntry(texts, list[i]));
        AppendCertificationEntry(list[i]);
        i := i + 1;
      }
      assert list[..i] == list;
      AppendAssoc(old(doc), [SectionStart(texts.certifications)], CertificationEntries(texts, list));
      AppendAssoc(old(doc), [SectionStart(texts.certifications)] + CertificationEntries(texts, list), [SectionEnd]);
      doc := doc + [SectionEnd];
    }

    method AppendProjectEntry(project: PersonalProject)
      modifies this
      ensures doc == old(doc) + ProjectEntry(texts, project) && packages == old(packages)
    {
      var title := AppEscapeLatex(Some(project.name));
      if Truthy(project.url) {
        title := @"\href{" + project.url.value + "}{" + title + "}";
      }
      var description := AppEscapeLatex(Some(project.description));
      var technologies := AppEscapeLatex(Some(Join(project.technologies, ", ")));
      var heading := [Raw(@"\subsection*{\textbf{" + title + "}}"), Raw(description), Raw(@"\vspace{0.1cm}"),
                      Raw(@"\textit{" + texts.technologies + "} " + technologies)];
      doc := doc + heading;
      ghost var written := heading;
      ghost var highlights := if project.highlights != [] then Itemize(project.highlights) else [];
      AppendAssoc(old(doc), written, highlights);
      AppendNothing(old(doc) + written);
      if project.highlights != [] {
        AppendItemize(project.highlights);
      }
      written := written + highlights;
      AppendAssoc(old(doc), written, [Raw(@"\vspace{0.2cm}")]);
      doc := doc + [Raw(@"\vspace{0.2cm}")];
    }

    method GeneratePersonalProjects(projects: Option<seq<PersonalProject>>)
      modifies this
      ensures doc == old(doc) + ProjectItems(texts, projects) && packages == old(packages)
    {
      if projects.None? || projects.value == [] {
        return;
      }
      var list := projects.value;
      doc := doc + [SectionStart(texts.personalProjects)];
      var i := 0;
      while i < |list|
        invariant 0 <= i <= |list|
        invariant doc == old(doc) + [SectionStart(texts.personalProjects)] + ProjectEntries(texts, list[..i])
        invariant packages == old(packages)
      {
        ProjectEntriesSnoc(texts, list, i);
        AppendAssoc(old(doc) + [SectionStart(texts.personalProjects)], ProjectEntries(texts, list[..i]), ProjectEntry(texts, list[i]));
        AppendProjectEntry(list[i]);
        i := i + 1;
      }
      assert list[..i] == list;
      AppendAssoc(old(doc), [SectionStart(texts.personalProjects)], ProjectEntries(texts, list));
      AppendAssoc(old(doc), [SectionStart(texts.personalProjects)] + ProjectEntries(texts, list), [SectionEnd]);
      doc := doc + [SectionEnd];
    }

    method GenerateEducation(edus: seq<Education>)
      modifies this
      ensures doc == old(doc) + EducationItems(texts, edus) && packages == old(packages)
    {
      if edus == [] {
        return;
      }
      doc := doc + [SectionStart(texts.education)];
      var i := 0;
      while i < |edus|
        invariant 0 <= i <= |edus|
        invariant doc == old(doc) + [SectionStart(texts.education)] + EducationEntries(edus[..i])
        invariant packages == old(packages)
      {
        EducationEntriesSnoc(edus, i);
        var edu := edus[i];
        var institution := AppEscapeLatex(Some(edu.institution));
        var degree := AppEscapeLatex(Some(edu.degree));
        var year := AppEscapeLatex(Some(edu.graduationYear));
        var entry := [Raw(@"\subsection*{" + @"\textbf{" + institution + @"} \hfill " + edu.location + "}"),
                      Raw(@"\textit{" + degree + @" \hfill " + year + "}"),
                      Raw(@"\vspace{0.2cm}")];
        assert entry == EducationEntry(edu);
        AppendAssoc(old(doc) + [SectionStart(texts.education)], EducationEntries(edus[..i]), entry);
        doc := doc + entry;
        i := i + 1;
      }
      assert edus[..i] == edus;
      AppendAssoc(old(doc), [SectionStart(texts.education)], EducationEntries(edus));
      AppendAssoc(old(doc), [SectionStart(texts.education)] + EducationEntries(edus), [SectionEnd]);
      doc := doc + [SectionEnd];
    }

    /** Appends the whole résumé: header, optional summary, experience,
        skills, optional certifications and projects, education. */
    method GenerateLatexDoc(resume: Resume) returns (d: Document)
      modifies this
      ensures doc == old(doc) + ResumeItems(texts, resume) && packages == old(packages)
      ensures d == Current()
    {
      GeneratePersonalInfo(resume);
      ghost var written := PersonalInfoItems(resume);
      AppendAssoc(old(doc), written, SummaryItems(texts, resume.professionalSummary));
      AppendNothing(old(doc) + written);
      if resume.professionalSummary.Some? {
        GenerateProfessionalSummary(resume.professionalSummary);
      }
      written := written + SummaryItems(texts, resume.professionalSummary);
      AppendAssoc(old(doc), written, ExperienceItems(texts, resume.experience));
      GenerateExperience(resume.experience);
      written := written + ExperienceItems(texts, resume.experience);
      AppendAssoc(old(doc), written, SkillsItems(texts, resume.skills));
      GenerateSkills(resume.skills);
      written := written + SkillsItems(texts, resume.skills);
      AppendAssoc(old(doc), written, CertificationItems(texts, resume.certifications));
      AppendNothing(old(doc) + written);
      if resume.certifications.Some? && resume.certifications.value != [] {
        GenerateCertifications(resume.certifications);
      }
      written := written + CertificationItems(texts, resume.certifications);
      AppendAssoc(old(doc), written, ProjectItems(texts, resume.personalProjects));
      AppendNothing(old(doc) + written);
      if resume.personalProjects.Some? && resume.personalProjects.value != [] {
        GeneratePersonalProjects(resume.personalProjects);
      }
      written := written + ProjectItems(texts, resume.personalProjects);
      AppendAssoc(old(doc), written, EducationItems(texts, resume.education));
      GenerateEducation(resume.education);
      written := written + EducationItems(texts, resume.education);
      d := Current();
    }
  }
}
