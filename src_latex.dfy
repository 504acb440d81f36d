/** The older string-building résumé renderer (src/cv_maker/latex_generator.py).
    Every builder returns a piece of LaTeX text and `generate` concatenates
    them: a fixed header, the personal information, the experience, skills
    and education sections and a fixed footer. */
module SrcLatex {
  import opened Common
  import opened LatexEscape

  /** The résumé records of the older renderer (src/cv_maker/models.py):
      no locations and none of the optional sections. */
  datatype Experience = Experience(
    company: string,
    jobTitle: string,
    startDate: string,
    endDate: Option<string>,
    bulletPoints: seq<string>)

  datatype Skills = Skills(technicalSkills: seq<string>, softSkills: seq<string>, languages: seq<string>)

  datatype Education = Education(institution: string, degree: string, graduationYear: string)

  datatype Resume = Resume(
    name: string,
    email: string,
    phone: string,
    address: string,
    linkedIn: Option<string>,
    github: Option<string>,
    experience: seq<Experience>,
    skills: Skills,
    education: seq<Education>)

  /** The fixed preamble `_generate_header` returns: the document class,
      the packages, the page and link set-up, the section format and
      `\begin{document}`. Its text is not reproduced here; only its place at
      the head of the document is. */
  const Header: string

  const Footer: string := @"\end{document}" + "\n"

  /** Python's `s.rstrip(c)` for one character. */
  function RStrip(s: string, c: char): (r: string)
    ensures |r| <= |s| && r == s[..|r|]
    ensures r == [] || r[|r| - 1] != c
    ensures forall i :: |r| <= i < |s| ==> s[i] == c
  {
    if s != [] && s[|s| - 1] == c then RStrip(s[..|s| - 1], c) else s
  }

  /** Python's `s.startswith("http")`. */
  predicate IsHttp(s: string)
  {
    "http" <= s
  }

  /** How a LinkedIn value is shown: a full URL is shortened to
      `linkedin.com/in/` and what follows its last "/in/", without trailing
      slashes; anything else is shown as it is. */
  function LinkedInDisplay(url: string): string
  {
    if IsHttp(url) then "linkedin.com/in/" + RStrip(LastPiece(url, "/in/"), '/') else url
  }

  /** How a GitHub value is shown: a full URL is shortened to `github.com/`
      and its last "/"-separated segment, trailing slashes stripped after the
      split; anything else is shown as it is. */
  function GitHubDisplay(url: string): string
  {
    if IsHttp(url) then "github.com/" + RStrip(LastPiece(url, "/"), '/') else url
  }

  /** The contact entries: e-mail always, then the phone as given, and
      LinkedIn and GitHub links with their shortened text, when present. */
  function ContactParts(resume: Resume): seq<string>
  {
    [@"Email: \href{mailto:" + resume.email + "}{" + resume.email + "}"]
    + (if resume.phone != "" then ["Phone: " + resume.phone] else [])
    + (if Truthy(resume.linkedIn)
       then [@"\href{" + resume.linkedIn.value + "}{" + LinkedInDisplay(resume.linkedIn.value) + "}"] else [])
    + (if Truthy(resume.github)
       then [@"\href{" + resume.github.value + "}{" + GitHubDisplay(resume.github.value) + "}"] else [])
  }

  function PersonalInfo(resume: Resume): string
  {
    "% --- HEADER ---\n% Personal information\n\\begin{center}\n    {\\LARGE \\textbf{"
    + SrcEscape(resume.name) + "}} \n    \\\\ [0.1cm]\n    "
    + SrcEscape(resume.address) + "\n    \\\\ [0.1cm] \n    "
    + Join(ContactParts(resume), @" {\textbullet} ") + "\n\\end{center}\n\n"
  }

  const ExperienceHeading: string := "\\section{Experience}\n"

  /** The sub-heading of one position up to its bookmark text: the escaped
      company twice (the second time as bookmark text), each followed by the
      fixed location "Remote". */
  function ExperienceSubheading(exp: Experience): string
  {
    "    \\subsection*{\\texorpdfstring{\n            \\textbf{" + SrcEscape(exp.company)
    + "} \\hfill " + SrcEscape("Remote") + "\n        }{\n            " + SrcEscape(exp.company)
    + " -- Remote\n"
  }

  /** The job title and the date range, then the opening of the itemize. */
  function ExperienceTitleLine(exp: Experience): string
  {
    "        }}\n    \\textit{" + SrcEscape(exp.jobTitle) + " \\hfill "
    + SrcEscape(DateRange(exp.startDate, exp.endDate)) + "}\n        \\begin{itemize}\n"
  }

  /** The whole head of one position. */
  function ExperienceHead(exp: Experience): string
  {
    ExperienceSubheading(exp) + ExperienceTitleLine(exp)
  }

  function BulletLine(bullet: string): string
  {
    "            \\item " + SrcEscape(bullet) + "\n"
  }

  function BulletLines(bullets: seq<string>): string
  {
    if bullets == [] then "" else BulletLines(bullets[..|bullets| - 1]) + BulletLine(bullets[|bullets| - 1])
  }

  const ItemizeEnd: string := "        \\end{itemize}\n\n"

  function ExperienceBlock(exp: Experience): string
  {
    ExperienceHead(exp) + BulletLines(exp.bulletPoints) + ItemizeEnd
  }

  function ExperienceBlocks(exps: seq<Experience>): string
  {
    if exps == [] then "" else ExperienceBlocks(exps[..|exps| - 1]) + ExperienceBlock(exps[|exps| - 1])
  }

  /** The experience section; nothing at all without positions. */
  function ExperienceSection(exps: seq<Experience>): string
  {
    if exps == [] then "" else ExperienceHeading + ExperienceBlocks(exps)
  }

  /** A skills line: the label, then the list joined by ", " and escaped as
      one string. */
  function SkillLine(caption: string, skills: seq<string>): string
  {
    if skills == [] then ""
    else "        \\item \\textbf{" + caption + "} " + SrcEscape(Join(skills, ", ")) + "\n"
  }

  /** The skills section, always present: technical skills, languages and
      soft skills, each line only when its list is not empty. */
  function SkillsSection(skills: Skills): string
  {
    "\\section{Skills}\n    \\begin{itemize}\n"
    + SkillLine("Technical:", skills.technicalSkills)
    + SkillLine("Languages:", skills.languages)
    + SkillLine("Soft Skills:", skills.softSkills)
    + "    \\end{itemize}\n\n"
  }

  const EducationHeading: string := "\\section{Education}\n"

  /** The sub-heading of one education entry up to its bookmark text, with
      the fixed location "Remote" as for a position. */
  function EducationSubheading(edu: Education): string
  {
    "    \\subsection*{\\texorpdfstring{\n            \\textbf{" + SrcEscape(edu.institution)
    + "} \\hfill " + SrcEscape("Remote") + "\n        }{\n            " + SrcEscape(edu.institution)
    + " (Education) -- Remote\n"
  }

  function DegreeLine(edu: Education): string
  {
    "        }}\n    \\textit{" + SrcEscape(edu.degree) + " \\hfill " + SrcEscape(edu.graduationYear) + "}\n\n"
  }

  function EducationBlock(edu: Education): string
  {
    EducationSubheading(edu) + DegreeLine(edu)
  }

  function EducationBlocks(edus: seq<Education>): string
  {
    if edus == [] then "" else EducationBlocks(edus[..|edus| - 1]) + EducationBlock(edus[|edus| - 1])
  }

  /** The education section; nothing at all without entries. */
  function EducationSection(edus: seq<Education>): string
  {
    if edus == [] then "" else EducationHeading + EducationBlocks(edus)
  }

  /** The whole document `generate` returns. */
  function Generated(resume: Resume): string
  {
    Header + PersonalInfo(resume) + ExperienceSection(resume.experience)
    + SkillsSection(resume.skills) + EducationSection(resume.education) + Footer
  }

  lemma ExperienceBlocksSnoc(exps: seq<Experience>, i: nat)
    requires i < |exps|
    ensures ExperienceBlocks(exps[..i + 1]) == ExperienceBlocks(exps[..i]) + ExperienceBlock(exps[i])
  {
    assert exps[..i + 1][..i] == exps[..i];
  }

  lemma BulletLinesSnoc(bullets: seq<string>, j: nat)
    requires j < |bullets|
    ensures BulletLines(bullets[..j + 1]) == BulletLines(bullets[..j]) + BulletLine(bullets[j])
  {
    assert bullets[..j + 1][..j] == bullets[..j];
  }

  lemma EducationBlocksSnoc(edus: seq<Education>, i: nat)
    requires i < |edus|
    ensures EducationBlocks(edus[..i + 1]) == EducationBlocks(edus[..i]) + EducationBlock(edus[i])
  {
    assert edus[..i + 1][..i] == edus[..i];
  }

  /** One pass of `_generate_experience`'s loop: appends the sub-heading, one
      `\item` line per bullet and the end of the itemize to `latex`. */
  method AppendExperience(latex: string, exp: Experience) returns (extended: string)
    ensures extended == latex + ExperienceBlock(exp)
  {
    var dateRange := exp.startDate;
    if Truthy(exp.endDate) {
      dateRange := dateRange + " - " + exp.endDate.value;
    }
    var company := SrcEscapeLatex(exp.company);
    var remote := SrcEscapeLatex("Remote");
    var jobTitle := SrcEscapeLatex(exp.jobTitle);
    var dates := SrcEscapeLatex(dateRange);
    var subheading := "    \\subsection*{\\texorpdfstring{\n            \\textbf{" + company
      + "} \\hfill " + remote + "\n        }{\n            " + company + " -- Remote\n";
    var titleLine := "        }}\n    \\textit{" + jobTitle + " \\hfill "
      + dates + "}\n        \\begin{itemize}\n";
    assert subheading == ExperienceSubheading(exp);
    assert titleLine == ExperienceTitleLine(exp);
    var head := subheading + titleLine;
    extended := latex + head;
    var j := 0;
    while j < |exp.bulletPoints|
      invariant 0 <= j <= |exp.bulletPoints|
      invariant extended == latex + head + BulletLines(exp.bulletPoints[..j])
    {
      var bullet := SrcEscapeLatex(exp.bulletPoints[j]);
      var line := "            \\item " + bullet + "\n";
      assert line == BulletLine(exp.bulletPoints[j]);
      BulletLinesSnoc(exp.bulletPoints, j);
      AppendAssoc(latex + head, BulletLines(exp.bulletPoints[..j]), line);
      extended := extended + line;
      j := j + 1;
    }
    assert exp.bulletPoints[..j] == exp.bulletPoints;
    AppendAssoc(latex, head, BulletLines(exp.bulletPoints));
    AppendAssoc(latex, head + BulletLines(exp.bulletPoints), ItemizeEnd);
    extended := extended + ItemizeEnd;
  }

  /** `_generate_experience`: nothing without positions, else the heading
      and one block per position. */
  method GenerateExperience(experiences: seq<Experience>) returns (latex: string)
    ensures latex == ExperienceSection(experiences)
  {
    if experiences == [] {
      return "";
    }
    latex := "\\section{Experience}\n";
    var i := 0;
    while i < |experiences|
      invariant 0 <= i <= |experiences|
      invariant latex == ExperienceHeading + ExperienceBlocks(experiences[..i])
    {
      AppendAssoc(ExperienceHeading, ExperienceBlocks(experiences[..i]), ExperienceBlock(experiences[i]));
      ExperienceBlocksSnoc(experiences, i);
      latex := AppendExperience(latex, experiences[i]);
      i := i + 1;
    }
    assert experiences[..i] == experiences;
  }

  /** `_generate_education`: the heading, then a sub-heading and the degree
      line per entry. */
  method GenerateEducation(education: seq<Education>) returns (latex: string)
    ensures latex == EducationSection(education)
  {
    if education == [] {
      return "";
    }
    latex := "\\section{Education}\n";
    var i := 0;
    while i < |education|
      invariant 0 <= i <= |education|
      invariant latex == EducationHeading + EducationBlocks(education[..i])
    {
      var edu := education[i];
      var institution := SrcEscapeLatex(edu.institution);
      var remote := SrcEscapeLatex("Remote");
      var degree := SrcEscapeLatex(edu.degree);
      var year := SrcEscapeLatex(edu.graduationYear);
      var subheading := "    \\subsection*{\\texorpdfstring{\n            \\textbf{" + institution
        + "} \\hfill " + remote + "\n        }{\n            " + institution + " (Education) -- Remote\n";
      var degreeLine := "        }}\n    \\textit{" + degree + " \\hfill " + year + "}\n\n";
      assert subheading == EducationSubheading(edu);
      assert degreeLine == DegreeLine(edu);
      var block := subheading + degreeLine;
      AppendAssoc(EducationHeading, EducationBlocks(education[..i]), block);
      EducationBlocksSnoc(education, i);
      latex := latex + block;
      i := i + 1;
    }
    assert education[..i] == education;
  }

  /** `generate`: header, personal information, experience, skills,
      education and footer, in that order. */
  method Generate(resume: Resume) returns (latex: string)
    ensures latex == Generated(resume)
  {
    latex := Header;
    latex := latex + PersonalInfo(resume);
    var experience := GenerateExperience(resume.experience);
    latex := latex + experience;
    latex := latex + SkillsSection(resume.skills);
    var education := GenerateEducation(resume.education);
    latex := latex + education;
    latex := latex + Footer;
  }

  /** The document opens with the preamble and closes with
      `\end{document}`, whatever the résumé holds. */
  lemma GeneratedFrame(resume: Resume)
    ensures Header <= Generated(resume)
    ensures |Generated(resume)| >= |Footer|
    ensures Generated(resume)[|Generated(resume)| - |Footer|..] == Footer
  {
    Framed(Header, PersonalInfo(resume), ExperienceSection(resume.experience),
      SkillsSection(resume.skills), EducationSection(resume.education), Footer);
  }

  // Properties of the URL shortening.

  /** What `github.com/` is followed by: the last "/"-separated segment as it
      is, because a segment never holds a "/" for `rstrip` to remove. */
  lemma GitHubDisplaySegment(a: string, user: string)
    requires IsHttp(a + "/" + user)
    requires forall i :: 0 <= i < |user| ==> user[i] != '/'
    ensures GitHubDisplay(a + "/" + user) == "github.com/" + user
  {
    SplitLastAfterSep(a, '/', user);
  }

  /** A GitHub URL that ends in "/" is shown as `github.com/` alone: the
      split has already made the last segment empty when `rstrip` runs. */
  lemma GitHubTrailingSlashDropsUser(url: string)
    requires IsHttp(url) && url[|url| - 1] == '/'
    ensures GitHubDisplay(url) == "github.com/"
  {
    assert url == url[..|url| - 1] + "/" + "";
    GitHubDisplaySegment(url[..|url| - 1], "");
  }

  /** A LinkedIn URL is always shown under `linkedin.com/in/`, and the shown
      text never ends in "/" after the prefix. */
  lemma LinkedInDisplayShape(url: string)
    requires IsHttp(url)
    ensures "linkedin.com/in/" <= LinkedInDisplay(url)
    ensures var d := LinkedInDisplay(url); |d| == |"linkedin.com/in/"| || d[|d| - 1] != '/'
  {
  }

  /** A text that does not end in "/in" starts no "/in/" that runs into a
      "/in/" written after it. */
  lemma ProfileSepAcross(a: string)
    requires |a| >= 3 && a[|a| - 3..] != "/in"
    ensures NoSepAcross(a, "/in/")
  {
    var t := a + "/in/";
    forall p: nat | p < |a| < p + 4
      ensures !SepAt(t, "/in/", p)
    {
      var w := t[p..p + 4];
      assert t[|a|] == '/';
      if p == |a| - 1 {
        assert w[1] == t[|a|];
      } else if p == |a| - 2 {
        assert w[2] == t[|a|];
      } else {
        assert p == |a| - 3;
        assert forall k :: 0 <= k < 3 ==> w[k] == t[p + k] == a[p + k];
        assert w[..3] == a[|a| - 3..];
      }
    }
  }

  /** A text with at most one "/" holds no "/in/". */
  lemma ProfileSepNotIn(b: string)
    requires forall i, j :: 0 <= i < j < |b| && b[i] == '/' ==> b[j] != '/'
    ensures NoSepIn(b, "/in/")
  {
    forall i: nat | i < |b|
      ensures !SepAt(b, "/in/", i)
    {
      if i + 4 <= |b| {
        assert b[i..i + 4][0] == b[i] && b[i..i + 4][3] == b[i + 3];
      }
    }
  }

  /** A LinkedIn URL is shown as `linkedin.com/in/` followed by the user
      name after its "/in/", with or without a trailing "/". The URL must
      not have "/in" just before that "/in/": the split would then have cut
      at the earlier one. */
  lemma LinkedInDisplayUser(a: string, user: string)
    requires IsHttp(a) && a[|a| - 3..] != "/in"
    requires forall i :: 0 <= i < |user| ==> user[i] != '/'
    ensures LinkedInDisplay(a + "/in/" + user) == "linkedin.com/in/" + user
    ensures LinkedInDisplay(a + "/in/" + user + "/") == "linkedin.com/in/" + user
  {
    ProfileSepAcross(a);
    ProfileSepNotIn(user);
    SplitLastAfterSepIn(a, "/in/", user);
    assert (a + "/in/" + user)[..4] == a[..4];
    var slashed := user + "/";
    ProfileSepNotIn(slashed);
    assert a + "/in/" + user + "/" == a + "/in/" + slashed;
    SplitLastAfterSepIn(a, "/in/", slashed);
    assert (a + "/in/" + slashed)[..4] == a[..4];
    assert slashed[..|user|] == user;
  }

  /** Python's split does not overlap its matches: in ".../in/in/bob" it
      cuts at the first "/in/", so "in/" is shown as part of the user
      name. */
  lemma LinkedInRepeatedSeparator(a: string, user: string)
    requires IsHttp(a) && a[|a| - 3..] != "/in"
    requires user != "" && forall i :: 0 <= i < |user| ==> user[i] != '/'
    ensures LinkedInDisplay(a + "/in/in/" + user) == "linkedin.com/in/in/" + user
  {
    var rest := "in/" + user;
    ProfileSepAcross(a);
    ProfileSepNotIn(rest);
    assert a + "/in/in/" + user == a + "/in/" + rest;
    SplitLastAfterSepIn(a, "/in/", rest);
    assert (a + "/in/" + rest)[..4] == a[..4];
    assert rest[|rest| - 1] == user[|user| - 1];
    assert "linkedin.com/in/" + rest == "linkedin.com/in/in/" + user;
  }

  /** Values that are not URLs are shown unchanged. */
  lemma NonUrlShownAsGiven(url: string)
    requires !IsHttp(url)
    ensures LinkedInDisplay(url) == url && GitHubDisplay(url) == url
  {
  }

  // Properties of the document.

  /** "Remote" has no special character, so the escaped location is the
      word itself. */
  lemma RemoteUnescaped()
    ensures SrcEscape("Remote") == "Remote"
  {
    SrcEscapeIdentity("Remote");
  }

  /** Every position shows the literal location "Remote", whatever its
      data: the sub-heading opens with the escaped company followed by
      `\hfill Remote`, and the bookmark text is the escaped company followed
      by " -- Remote". */
  lemma ExperienceShowsRemote(exp: Experience)
    ensures "    \\subsection*{\\texorpdfstring{\n            \\textbf{" + SrcEscape(exp.company)
      + "} \\hfill " + "Remote" + "\n        }{\n            " + SrcEscape(exp.company) + " -- Remote\n"
      <= ExperienceBlock(exp)
  {
    RemoteUnescaped();
    PrefixOfAppends(ExperienceSubheading(exp), ExperienceTitleLine(exp), BulletLines(exp.bulletPoints), ItemizeEnd);
  }

  /** Every education entry shows "Remote" in the same places, with
      " (Education)" before it in the bookmark text. */
  lemma EducationShowsRemote(edu: Education)
    ensures "    \\subsection*{\\texorpdfstring{\n            \\textbf{" + SrcEscape(edu.institution)
      + "} \\hfill " + "Remote" + "\n        }{\n            " + SrcEscape(edu.institution)
      + " (Education) -- Remote\n"
      <= EducationBlock(edu)
  {
    RemoteUnescaped();
    PrefixOfAppends(EducationSubheading(edu), DegreeLine(edu), [], []);
  }

  /** Escaping the joined skills equals joining the escaped skills: ", "
      holds no special character. */
  lemma SkillLineEscapesEach(caption: string, skills: seq<string>)
    requires skills != []
    ensures SkillLine(caption, skills)
      == "        \\item \\textbf{" + caption + "} " + Join(SrcEscapeEach(skills), ", ") + "\n"
  {
    SrcEscapeJoin(skills, ", ");
  }

  /** The positions' blocks come out in the order of the input: the blocks of
      the first `i` positions begin the blocks of all of them. */
  lemma {:induction false} ExperienceBlocksPrefix(exps: seq<Experience>, i: nat)
    requires i <= |exps|
    ensures ExperienceBlocks(exps[..i]) <= ExperienceBlocks(exps)
    decreases |exps| - i
  {
    if i < |exps| {
      ExperienceBlocksPrefix(exps, i + 1);
      ExperienceBlocksSnoc(exps, i);
      assert ExperienceBlocks(exps[..i]) <= ExperienceBlocks(exps[..i + 1]);
    } else {
      assert exps[..i] == exps;
    }
  }

  lemma {:induction false} EducationBlocksPrefix(edus: seq<Education>, i: nat)
    requires i <= |edus|
    ensures EducationBlocks(edus[..i]) <= EducationBlocks(edus)
    decreases |edus| - i
  {
    if i < |edus| {
      EducationBlocksPrefix(edus, i + 1);
      EducationBlocksSnoc(edus, i);
      assert EducationBlocks(edus[..i]) <= EducationBlocks(edus[..i + 1]);
    } else {
      assert edus[..i] == edus;
    }
  }

  /** Each bullet becomes exactly one `\item` line: the bullet lines of a
      position are its escaped bullets, one line each, in order. */
  lemma {:induction false} BulletLinesAppend(a: seq<string>, b: seq<string>)
    ensures BulletLines(a + b) == BulletLines(a) + BulletLines(b)
    decreases |b|
  {
    if b != [] {
      var b' := b[..|b| - 1];
      assert (a + b)[..|a + b| - 1] == a + b';
      assert (a + b)[|a + b| - 1] == b[|b| - 1];
      BulletLinesAppend(a, b');
      AppendAssoc(BulletLines(a), BulletLines(b'), BulletLine(b[|b| - 1]));
    } else {
      assert a + b == a;
    }
  }
}
