/**
 * Structural validation of an agent file: a metadata marker and three
 * required sections; each missing piece adds one error message, in a fixed
 * order, and the file is valid exactly when no message was added.
 */
module AgentValidation {
  import opened Results
  import opened Strings

  datatype ValidationResult = ValidationResult(valid: bool, errors: seq<string>)

  /** The failed tests, one per message the check can report. */
  datatype ValidationError =
    | FileMissing
    | MetadataMissing
    | SectionMissing(section: string)

  function Message(e: ValidationError): string {
    match e
    case FileMissing => "File does not exist"
    case MetadataMissing => "Missing agent metadata (name, description, model, color)"
    case SectionMissing(section) => "Missing required section: " + section
  }

  function Messages(errors: seq<ValidationError>): (r: seq<string>)
    ensures |r| == |errors| && forall k :: 0 <= k < |errors| ==> r[k] == Message(errors[k])
  {
    if |errors| == 0 then [] else Messages(errors[..|errors| - 1]) + [Message(errors[|errors| - 1])]
  }

  /** The sections every agent file must have, in the order they are checked. */
  const RequiredSections: seq<string> := ["Purpose", "Duty", "Instructions"]

  /** Metadata is present when the file opens with `---` or mentions `name:` anywhere. */
  predicate HasMetadata(content: string) {
    StartsWith(content, "---") || Contains(content, "name:")
  }

  /** A section is present as a level-two or level-three heading text anywhere in the file. */
  predicate HasSection(content: string, section: string) {
    Contains(content, "## " + section) || Contains(content, "### " + section)
  }

  /** The error for missing metadata, if any. */
  function MetadataErrors(content: string): seq<ValidationError> {
    if HasMetadata(content) then [] else [MetadataMissing]
  }

  /** The errors for the sections of `sections` that are missing, in order. */
  function SectionErrors(content: string, sections: seq<string>): seq<ValidationError>
    decreases |sections|
  {
    if |sections| == 0 then []
    else
      var last := sections[|sections| - 1];
      SectionErrors(content, sections[..|sections| - 1])
        + (if HasSection(content, last) then [] else [SectionMissing(last)])
  }

  /** All errors for a file; `None` is a file that does not exist. */
  function ExpectedErrors(content: Option<string>): seq<ValidationError> {
    match content
    case None => [FileMissing]
    case Some(c) => MetadataErrors(c) + SectionErrors(c, RequiredSections)
  }

  /** The check itself: the metadata test, then one test per required section. */
  method ValidateAgent(content: Option<string>) returns (r: ValidationResult)
    ensures r.errors == Messages(ExpectedErrors(content))
    ensures r.valid <==> ExpectedErrors(content) == []
  {
    if content.None? {
      return ValidationResult(false, [Message(FileMissing)]);
    }
    var c := content.value;
    var errors: seq<string> := [];
    if !StartsWith(c, "---") && !Contains(c, "name:") {
      MessagesAppend([], MetadataMissing);
      errors := errors + [Message(MetadataMissing)];
    }
    errors := CheckSections(c, RequiredSections, MetadataErrors(c), errors);
    return ValidationResult(|errors| == 0, errors);
  }

  /** The loop over the sections: appends, in order, one message per section `content` lacks. */
  method CheckSections(content: string, sections: seq<string>, prior: seq<ValidationError>, priorMessages: seq<string>)
    returns (errors: seq<string>)
    requires priorMessages == Messages(prior)
    ensures errors == Messages(prior + SectionErrors(content, sections))
  {
    errors := priorMessages;
    var i := 0;
    assert prior + SectionErrors(content, sections[..0]) == prior;
    while i < |sections|
      invariant 0 <= i <= |sections|
      invariant errors == Messages(prior + SectionErrors(content, sections[..i]))
    {
      var section := sections[i];
      var before := prior + SectionErrors(content, sections[..i]);
      SectionErrorsStep(content, sections, i);
      if !Contains(content, "## " + section) && !Contains(content, "### " + section) {
        MessagesAppend(before, SectionMissing(section));
        assert prior + SectionErrors(content, sections[..i + 1]) == before + [SectionMissing(section)];
        errors := errors + [Message(SectionMissing(section))];
      } else {
        assert prior + SectionErrors(content, sections[..i + 1]) == before;
      }
      i := i + 1;
    }
    assert sections[..i] == sections;
  }

  lemma MessagesAppend(errors: seq<ValidationError>, e: ValidationError)
    ensures Messages(errors + [e]) == Messages(errors) + [Message(e)]
  {
    assert (errors + [e])[..|errors|] == errors;
  }

  lemma SectionErrorsStep(content: string, sections: seq<string>, i: nat)
    requires i < |sections|
    ensures SectionErrors(content, sections[..i + 1]) == SectionErrors(content, sections[..i])
              + (if HasSection(content, sections[i]) then [] else [SectionMissing(sections[i])])
  {
    assert sections[..i + 1][..i] == sections[..i];
  }

  /** Every `### X` heading also contains `## X`, so the second test never changes the outcome. */
  lemma LevelThreeImpliesLevelTwo(content: string, section: string)
    ensures HasSection(content, section) <==> Contains(content, "## " + section)
  {
    if Contains(content, "### " + section) {
      assert "### " + section == "#" + ("## " + section);
      ContainsSuffixOfPattern(content, "#", "## " + section);
    }
  }

  /** A section's message is among the errors exactly when it is listed and missing. */
  lemma {:induction false} SectionErrorsMembership(content: string, sections: seq<string>, s: string)
    ensures SectionMissing(s) in SectionErrors(content, sections) <==> s in sections && !HasSection(content, s)
    decreases |sections|
  {
    if |sections| > 0 {
      var init := sections[..|sections| - 1];
      var last := sections[|sections| - 1];
      SectionErrorsMembership(content, init, s);
      assert sections == init + [last];
    }
  }

  /** Every section message names a listed, missing section. */
  lemma {:induction false} SectionErrorsShape(content: string, sections: seq<string>)
    ensures |SectionErrors(content, sections)| <= |sections|
    ensures forall e :: e in SectionErrors(content, sections) ==>
              e.SectionMissing? && e.section in sections && !HasSection(content, e.section)
    decreases |sections|
  {
    if |sections| > 0 {
      var init := sections[..|sections| - 1];
      SectionErrorsShape(content, init);
      assert sections == init + [sections[|sections| - 1]];
    }
  }

  /** A missing section is reported once for each time it is listed, a present one never. */
  lemma {:induction false} SectionErrorsCount(content: string, sections: seq<string>, s: string)
    ensures multiset(SectionErrors(content, sections))[SectionMissing(s)]
            == if HasSection(content, s) then 0 else multiset(sections)[s]
    decreases |sections|
  {
    if |sections| > 0 {
      var init := sections[..|sections| - 1];
      var last := sections[|sections| - 1];
      SectionErrorsCount(content, init, s);
      assert sections == init + [last];
      assert multiset(sections) == multiset(init) + multiset{last};
    }
  }

  /** The missing-file error stands alone; otherwise each error is tied to one failed test. */
  lemma ErrorsCharacterized(content: Option<string>)
    ensures content.None? ==> ExpectedErrors(content) == [FileMissing]
    ensures content.Some? ==>
      && (MetadataMissing in ExpectedErrors(content) <==> !HasMetadata(content.value))
      && (forall s :: SectionMissing(s) in ExpectedErrors(content) <==>
                      s in RequiredSections && !HasSection(content.value, s))
      && |ExpectedErrors(content)| <= 1 + |RequiredSections|
      && FileMissing !in ExpectedErrors(content)
  {
    if content.Some? {
      var c := content.value;
      SectionErrorsShape(c, RequiredSections);
      forall s ensures SectionMissing(s) in ExpectedErrors(content) <==> s in RequiredSections && !HasSection(c, s) {
        SectionErrorsMembership(c, RequiredSections, s);
      }
    }
  }

  /** Each required section is reported at most once. */
  lemma SectionReportedOnce(content: string, s: string)
    ensures multiset(ExpectedErrors(Some(content)))[SectionMissing(s)] <= 1
  {
    SectionErrorsCount(content, RequiredSections, s);
    RequiredSectionsListedOnce();
    assert multiset(ExpectedErrors(Some(content)))
        == multiset(MetadataErrors(content)) + multiset(SectionErrors(content, RequiredSections));
  }

  lemma RequiredSectionsListedOnce()
    ensures forall s :: multiset(RequiredSections)[s] <= 1
  {
    var r := RequiredSections;
    assert r == ["Purpose"] + ["Duty"] + ["Instructions"];
    assert multiset(r) == multiset{"Purpose"} + multiset{"Duty"} + multiset{"Instructions"};
    assert "Purpose" != "Duty" && "Purpose" != "Instructions" && "Duty" != "Instructions" by {
      assert |"Purpose"| == 7 && |"Duty"| == 4 && |"Instructions"| == 12;
    }
  }

  /** A file is valid exactly when it exists, carries metadata and has all three sections. */
  lemma ValidIffComplete(content: Option<string>)
    ensures ExpectedErrors(content) == [] <==>
      content.Some? && HasMetadata(content.value) && forall s :: s in RequiredSections ==> HasSection(content.value, s)
  {
    ErrorsCharacterized(content);
    if content.Some? && ExpectedErrors(content) != [] {
      var c := content.value;
      var e := ExpectedErrors(content)[0];
      if e != MetadataMissing {
        assert e in SectionErrors(c, RequiredSections);
        SectionErrorsShape(c, RequiredSections);
      }
    }
  }

  /** A level-two heading anywhere in the file counts as the section. */
  lemma HeadingPresent(before: string, section: string, after: string)
    ensures HasSection(before + ("## " + section) + after, section)
  {
    ContainsMiddle(before, "## " + section, after);
  }

  /** A file with the marker and the three headings, whatever text surrounds them, passes. */
  lemma CompleteFileIsValid(a: string, b: string, d: string, e: string)
    ensures ExpectedErrors(Some("---" + a + "## Purpose" + b + "## Duty" + d + "## Instructions" + e)) == []
  {
    var h1, h2, h3 := "## " + "Purpose", "## " + "Duty", "## " + "Instructions";
    assert h1 == "## Purpose" && h2 == "## Duty" && h3 == "## Instructions";
    var c := "---" + a + h1 + b + h2 + d + h3 + e;
    assert c[..3] == "---";
    HeadingPresent("---" + a, "Purpose", b + h2 + d + h3 + e);
    assert c == ("---" + a) + h1 + (b + h2 + d + h3 + e);
    HeadingPresent("---" + a + h1 + b, "Duty", d + h3 + e);
    assert c == ("---" + a + h1 + b) + h2 + (d + h3 + e);
    HeadingPresent("---" + a + h1 + b + h2 + d, "Instructions", e);
    assert HasMetadata(c);
    assert forall s :: s in RequiredSections ==> HasSection(c, s);
    ValidIffComplete(Some(c));
  }

  /** A file with no `#` at all misses every section, in the order they are listed. */
  lemma NoHeadingsMissesAll(c: string)
    requires '#' !in c
    ensures ExpectedErrors(Some(c)) == MetadataErrors(c)
              + [SectionMissing("Purpose"), SectionMissing("Duty"), SectionMissing("Instructions")]
  {
    forall s ensures !HasSection(c, s) {
      NotContainsMissingChar(c, "## " + s, '#');
      NotContainsMissingChar(c, "### " + s, '#');
    }
    var r := RequiredSections;
    assert r[..2] == ["Purpose", "Duty"] && r[..2][..1] == ["Purpose"] && r[..2][..1][..0] == [];
    assert SectionErrors(c, r[..2][..1]) == [SectionMissing("Purpose")];
    assert SectionErrors(c, r[..2]) == [SectionMissing("Purpose"), SectionMissing("Duty")];
  }
}
