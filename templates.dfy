// The e-mail templates of template_manager.py: a template's subject and body
// with `{name}` placeholders filled in from a dictionary of variables, the
// dictionary form a template is stored in, and the manager's table of
// templates by name.  Saving to and loading from the JSON storage file are
// outside the model: a manager starts with the three default templates.
module EmailTemplates {
  import opened Wrappers
  import opened Keys
  import Text

  /** A template; its fields are never reassigned, so it is a value. */
  datatype EmailTemplate = EmailTemplate(name: string, subject: string, body: string, description: string)

  /** What render returns. */
  datatype Rendered = Rendered(subject: string, body: string)

  /** The placeholder of a variable. */
  function Placeholder(key: string): (p: string)
    ensures |p| == |key| + 2 && p[0] == '{' && p[|p| - 1] == '}'
  {
    "{" + key + "}"
  }

  /** The text after each variable's placeholder is replaced by its value, in dictionary order. */
  function RenderText(s: string, variables: seq<(string, string)>): string
  {
    if variables == [] then s
    else
      var last := variables[|variables| - 1];
      Text.Replace(RenderText(s, variables[..|variables| - 1]), Placeholder(last.0), last.1)
  }

  /**
   * render: the subject and body with every placeholder of a supplied
   * variable replaced, variable by variable; the template itself is a value
   * and stays as it was.
   */
  method Render(t: EmailTemplate, variables: seq<(string, string)>) returns (r: Rendered)
    ensures r.subject == RenderText(t.subject, variables)
    ensures r.body == RenderText(t.body, variables)
  {
    var subject := t.subject;
    var body := t.body;
    var k := 0;
    while k < |variables|
      invariant 0 <= k <= |variables|
      invariant subject == RenderText(t.subject, variables[..k])
      invariant body == RenderText(t.body, variables[..k])
    {
      assert variables[..k + 1][..k] == variables[..k];
      var placeholder := "{" + variables[k].0 + "}";
      subject := Text.Replace(subject, placeholder, variables[k].1);
      body := Text.Replace(body, placeholder, variables[k].1);
      k := k + 1;
    }
    assert variables[..k] == variables;
    r := Rendered(subject, body);
  }

  /** A text holding no placeholder of any supplied variable is rendered verbatim. */
  lemma {:induction false} RenderWithoutPlaceholders(s: string, variables: seq<(string, string)>)
    requires forall k :: 0 <= k < |variables| ==> !Text.Contains(s, Placeholder(variables[k].0))
    ensures RenderText(s, variables) == s
  {
    if variables != [] {
      var init := variables[..|variables| - 1];
      RenderWithoutPlaceholders(s, init);
      Text.ReplaceAbsent(s, Placeholder(variables[|variables| - 1].0), variables[|variables| - 1].1);
    }
  }

  /**
   * A placeholder between brace-free text is replaced by the variable's
   * value, as in "Hello {name}" with name John giving "Hello John".
   */
  lemma RenderOnePlaceholder(before: string, key: string, after: string, value: string)
    requires '{' !in before && '{' !in after
    ensures RenderText(before + Placeholder(key) + after, [(key, value)]) == before + value + after
  {
    var vars := [(key, value)];
    assert vars[..0] == [];
    var p := Placeholder(key);
    Text.ReplaceSkip(before, p + after, p, value);
    Text.ReplaceHit(p, value, after);
    Text.ReplaceSkip(after, "", p, value);
    assert after + "" == after;
    assert before + p + after == before + (p + after);
  }

  // ---- dictionary form ---------------------------------------------------------

  /** to_dict. */
  function ToDict(t: EmailTemplate): (d: map<string, string>)
    ensures d.Keys == {"name", "subject", "body", "description"}
  {
    map["name" := t.name, "subject" := t.subject, "body" := t.body, "description" := t.description]
  }

  /** from_dict: a missing name, subject or body raises KeyError; a missing description is "". */
  function FromDict(d: map<string, string>): (r: Result<EmailTemplate, string>)
    ensures r.Success? <==> "name" in d && "subject" in d && "body" in d
    ensures r.Success? ==> r.value.name == d["name"] && r.value.subject == d["subject"] && r.value.body == d["body"]
    ensures r.Success? ==> r.value.description == if "description" in d then d["description"] else ""
  {
    if "name" !in d then Failure("name")
    else if "subject" !in d then Failure("subject")
    else if "body" !in d then Failure("body")
    else Success(EmailTemplate(d["name"], d["subject"], d["body"], if "description" in d then d["description"] else ""))
  }

  /** Reading back a stored template reproduces every field. */
  lemma DictRoundTrip(t: EmailTemplate)
    ensures FromDict(ToDict(t)) == Success(t)
  {
  }

  /** A dictionary with exactly the four keys is the stored form of the template read from it. */
  lemma DictRoundTripBack(d: map<string, string>)
    requires d.Keys == {"name", "subject", "body", "description"}
    ensures FromDict(d).Success? && ToDict(FromDict(d).value) == d
  {
  }

  // ---- the manager ---------------------------------------------------------------

  const OutreachBody: string :=
    "Hi {first_name},\n\nI noticed that {company} is doing great work in {industry}. I wanted to reach out because I think our solution could help with {pain_point}.\n\nWould you be open to a brief 15-minute call next week to explore if there's a fit?\n\nBest regards,\n{sender_name}"
  const FollowUpBody: string :=
    "Hi {first_name},\n\nI wanted to follow up on my previous email about {topic}. I understand you're busy, but I genuinely believe this could be valuable for {company}.\n\nAre you available for a quick call this week?\n\nThanks,\n{sender_name}"
  const ValuePropositionBody: string :=
    "Hi {first_name},\n\nI wanted to share a quick success story. We recently helped {similar_company} achieve {result}.\n\nGiven that {company} is in a similar space, I thought this might be relevant to you.\n\nWould love to discuss how we could help {company} achieve similar results.\n\nBest,\n{sender_name}"

  const OutreachTemplate: EmailTemplate :=
    EmailTemplate("initial_outreach", "Quick question about {company}", OutreachBody, "Initial cold outreach template")
  const FollowUpTemplate: EmailTemplate :=
    EmailTemplate("follow_up", "Following up - {company}", FollowUpBody, "Follow-up email template")
  const ValuePropositionTemplate: EmailTemplate :=
    EmailTemplate("value_proposition", "How {our_company} helped {similar_company}", ValuePropositionBody,
                  "Value proposition template with case study")

  /** The templates a manager without a storage file starts with, in order. */
  const DefaultTemplates: seq<EmailTemplate> := [OutreachTemplate, FollowUpTemplate, ValuePropositionTemplate]

  const DefaultNames: seq<string> := ["initial_outreach", "follow_up", "value_proposition"]

  function Names(ts: seq<EmailTemplate>): (r: seq<string>)
    ensures |r| == |ts| && forall i :: 0 <= i < |ts| ==> r[i] == ts[i].name
  {
    seq(|ts|, i requires 0 <= i < |ts| => ts[i].name)
  }

  lemma DefaultNamesDistinct()
    ensures Names(DefaultTemplates) == DefaultNames && Distinct(DefaultNames)
  {
  }

  class EmailTemplateManager {
    var templates: map<string, EmailTemplate>
    /** The dictionary's keys in insertion order. */
    var order: seq<string>

    ghost predicate Valid()
      reads this`templates, this`order
    {
      Distinct(order) && (forall n :: n in templates <==> n in order)
      && forall n :: n in templates ==> templates[n].name == n
    }

    /** A manager without a storage file: exactly the three default templates, in order. */
    constructor ()
      ensures Valid()
      ensures order == DefaultNames
      ensures forall i :: 0 <= i < |DefaultTemplates| ==> templates[DefaultNames[i]] == DefaultTemplates[i]
    {
      templates, order := map[], [];
      new;
      DefaultNamesDistinct();
      AddAll(DefaultTemplates);
    }

    /** The loop of _init_default_templates: each template stored under its name. */
    method AddAll(ts: seq<EmailTemplate>)
      requires Valid() && order == [] && Distinct(Names(ts))
      modifies this`templates, this`order
      ensures Valid()
      ensures order == Names(ts)
      ensures forall i :: 0 <= i < |ts| ==> templates[ts[i].name] == ts[i]
    {
      var k := 0;
      while k < |ts|
        invariant 0 <= k <= |ts|
        invariant Valid() && Installed(ts, k)
      {
        AddNext(ts, k);
        k := k + 1;
      }
      assert Names(ts)[..k] == Names(ts);
    }

    /** The first `k` templates are stored, each under its name, and nothing else. */
    ghost predicate Installed(ts: seq<EmailTemplate>, k: nat)
      reads this`templates, this`order
    {
      k <= |ts| && order == Names(ts)[..k]
      && forall i :: 0 <= i < k ==> Names(ts)[i] in templates && templates[Names(ts)[i]] == ts[i]
    }

    /** One pass of the loop: the next template is stored. */
    method AddNext(ts: seq<EmailTemplate>, k: nat)
      requires Valid() && Distinct(Names(ts)) && k < |ts| && Installed(ts, k)
      modifies this`templates, this`order
      ensures Valid() && Installed(ts, k + 1)
    {
      ghost var names := Names(ts);
      var t := ts[k];
      assert t.name == names[k];
      ghost var before := templates;
      forall i | 0 <= i < k
        ensures names[i] != t.name && order[i] == names[i]
      {
      }
      assert t.name !in order;
      AddTemplate(t);
      assert templates == before[t.name := t];
      forall i | 0 <= i < k + 1
        ensures names[i] in templates && templates[names[i]] == ts[i]
      {
        if i < k {
          assert names[i] != t.name && names[i] in before;
          assert templates[names[i]] == before[names[i]];
        }
      }
      assert names[..k + 1] == names[..k] + [names[k]];
    }

    /** add_template: store the template under its name, replacing any with that name. */
    method AddTemplate(t: EmailTemplate)
      requires Valid()
      modifies this`templates, this`order
      ensures Valid()
      ensures templates == old(templates)[t.name := t]
      ensures order == if t.name in old(templates) then old(order) else old(order) + [t.name]
    {
      if t.name !in templates {
        AppendDistinct(order, t.name);
        order := order + [t.name];
      }
      templates := templates[t.name := t];
    }

    /** get_template: the template with that name, or None. */
    function GetTemplate(name: string): (r: Option<EmailTemplate>)
      requires Valid()
      reads this
      ensures r.None? <==> name !in templates
      ensures r.Some? ==> r.value == templates[name] && r.value.name == name
    {
      if name in templates then Some(templates[name]) else None
    }

    /** list_templates: every stored name once, in insertion order. */
    function ListTemplates(): (r: seq<string>)
      requires Valid()
      reads this
      ensures Distinct(r) && forall n :: n in r <==> n in templates
    {
      order
    }

    /** delete_template: True iff the name was stored; afterwards it is not. */
    method DeleteTemplate(name: string) returns (deleted: bool)
      requires Valid()
      modifies this`templates, this`order
      ensures Valid()
      ensures deleted <==> name in old(templates)
      ensures name !in templates && templates == old(templates) - {name}
      ensures deleted ==> order == Without(old(order), name)
      ensures !deleted ==> order == old(order)
    {
      if name in templates {
        WithoutDistinct(order, name);
        templates := templates - {name};
        order := Without(order, name);
        deleted := true;
      } else {
        deleted := false;
      }
    }

    /** render_template: None for an unknown name, else the template rendered with the variables. */
    method RenderTemplate(name: string, variables: seq<(string, string)>) returns (r: Option<Rendered>)
      requires Valid()
      ensures r.None? <==> name !in templates
      ensures r.Some? ==> r.value == Rendered(RenderText(templates[name].subject, variables),
                                              RenderText(templates[name].body, variables))
    {
      var t := GetTemplate(name);
      if t.None? {
        return None;
      }
      var rendered := Render(t.value, variables);
      r := Some(rendered);
    }
  }
}
