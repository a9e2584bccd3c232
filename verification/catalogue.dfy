/** The fixed catalogue of application types and the check a submission's
    type must pass. */
module Catalogue {

  datatype InputKind = TextArea | Text

  datatype Question = Question(id: string, kind: InputKind, prompt: string)

  datatype Template = Template(name: string, questions: seq<Question>)

  /** The three application types the server offers, keyed by type name. */
  const ApplicationTypes: map<string, Template> := map[
    "general" := Template("General Application", [
      Question("experience", TextArea, "Describe your relevant experience:"),
      Question("why_us", TextArea, "Why do you want to join us?")]),
    "moderator" := Template("Moderator Application", [
      Question("mod_experience", TextArea, "What is your experience with moderation?"),
      Question("scenarios", TextArea, "How would you handle a conflict between two members?"),
      Question("availability", Text, "What is your typical availability:")]),
    "developer" := Template("Developer Application", [
      Question("dev_skills", TextArea, "List your programming languages and skills:"),
      Question("portfolio", Text, "Link to your portfolio/GitHub:"),
      Question("project_idea", TextArea, "Describe a project you'd like to work on:")])
  ]

  /** A submitted type is accepted exactly when the catalogue has a template
      of that name (the corrected lookup, see InheritedNameAccepted). */
  predicate IsKnownType(name: string)
    ensures IsKnownType(name) <==> name == "general" || name == "moderator" || name == "developer"
  {
    name in ApplicationTypes
  }

  /** Every accepted type names a template with questions of distinct ids. */
  lemma KnownTypeHasTemplate(name: string)
    requires IsKnownType(name)
    ensures name in ApplicationTypes
    ensures |ApplicationTypes[name].questions| >= 2
    ensures forall i, j :: 0 <= i < j < |ApplicationTypes[name].questions| ==>
              ApplicationTypes[name].questions[i].id != ApplicationTypes[name].questions[j].id
  {
  }

  /** The names every plain JavaScript object inherits from Object.prototype;
      looking any of them up in the catalogue object yields a truthy value. */
  const InheritedNames: set<string> := {
    "constructor", "hasOwnProperty", "isPrototypeOf", "propertyIsEnumerable",
    "toLocaleString", "toString", "valueOf", "__proto__",
    "__defineGetter__", "__defineSetter__", "__lookupGetter__", "__lookupSetter__"
  }

  /** The type check as the server writes it, `!applicationTypes[applicationType]`
      on an object literal: own keys and inherited Object.prototype names both pass. */
  predicate IsKnownTypeAsWritten(name: string)
    ensures IsKnownType(name) ==> IsKnownTypeAsWritten(name)
  {
    name in ApplicationTypes || name in InheritedNames
  }

  /** The lookup as written lets through a type name that has no template:
      a submission with applicationType "toString" is stored. */
  lemma InheritedNameAccepted()
    ensures IsKnownTypeAsWritten("toString")
    ensures "toString" !in ApplicationTypes
  {
  }
}
