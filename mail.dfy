/** The check before a report is e-mailed and the message it hands to the
    mail composer. */
module Mail {

  datatype Option<T> = None | Some(value: T)

  /** The options given to the mail composer. */
  datatype MailOptions = MailOptions(attachments: seq<string>, subject: string, body: string)

  /** Either the form refuses to send (and alerts the user) or it opens the
      composer with these options. */
  datatype SendResult = MissingFields | Compose(options: MailOptions)

  const SubjectPrefix: string := "Defect melding - "

  /** The subject line: the fixed prefix followed by the category. */
  function Subject(category: string): (s: string)
    ensures |s| == |SubjectPrefix| + |category|
    ensures s[..|SubjectPrefix|] == SubjectPrefix
    ensures s[|SubjectPrefix|..] == category
  {
    SubjectPrefix + category
  }

  /** Different categories give different subjects. */
  lemma SubjectInjective(a: string, b: string)
    ensures Subject(a) == Subject(b) <==> a == b
  {
    if Subject(a) == Subject(b) {
      assert a == Subject(a)[|SubjectPrefix|..];
    }
  }

  /** `t` occurs in `b` starting at position `k`. */
  predicate OccursAt(b: string, t: string, k: nat)
  {
    k + |t| <= |b| && b[k..k + |t|] == t
  }

  /** `t` occurs somewhere in `b`. */
  ghost predicate Contains(b: string, t: string)
  {
    exists k: nat {:trigger OccursAt(b, t, k)} :: OccursAt(b, t, k)
  }

  /** `t` occurs in `a + t + c` right after `a`. */
  lemma OccursAfter(a: string, t: string, c: string)
    ensures OccursAt(a + t + c, t, |a|)
    ensures Contains(a + t + c, t)
  {
    var b := a + t + c;
    assert b[|a|..|a| + |t|] == t by {
      forall i | 0 <= i < |t| ensures b[|a|..|a| + |t|][i] == t[i] {
        assert b[|a| + i] == t[i];
      }
    }
    assert OccursAt(b, t, |a|);
  }

  /** An occurrence in `c` is still one after a prefix is put in front. */
  lemma ContainsAfterPrefix(a: string, c: string, t: string)
    requires Contains(c, t)
    ensures Contains(a + c, t)
  {
    var k: nat :| OccursAt(c, t, k);
    var b := a + c;
    assert b[|a| + k..|a| + k + |t|] == t by {
      forall i | 0 <= i < |t| ensures b[|a| + k..|a| + k + |t|][i] == t[i] {
        assert b[|a| + k + i] == c[k + i];
      }
    }
    assert OccursAt(b, t, |a| + k);
  }

  /** The location line: each coordinate follows its label. The texts of
      latitude and longitude are the decimal renderings of the
      floating-point coordinates. */
  function LocationText(latitude: string, longitude: string): (r: string)
    ensures Contains(r, "Latitude: " + latitude)
    ensures Contains(r, ", Longitude: " + longitude)
  {
    var first := "Latitude: " + latitude;
    var second := ", Longitude: " + longitude;
    OccursAfter([], first, second);
    assert [] + first + second == first + second;
    OccursAfter(first, second, []);
    assert first + second + [] == first + second;
    first + second
  }

  /** The message body: one line per field, each value after its label. */
  function Body(monteurName: string, category: string, description: string, locationText: string): (b: string)
    ensures Contains(b, "Monteur: " + monteurName)
    ensures Contains(b, "Categorie: " + category)
    ensures Contains(b, "Beschrijving: " + description)
    ensures Contains(b, "Locatie: " + locationText)
  {
    var indent := "\n      ";
    var l1 := "Monteur: " + monteurName;
    var l2 := "Categorie: " + category;
    var l3 := "Beschrijving: " + description;
    var l4 := "Locatie: " + locationText;
    var r4 := indent + l4 + "\n    ";
    var r3 := indent + l3 + r4;
    var r2 := indent + l2 + r3;
    var r1 := indent + l1 + r2;
    OccursAfter(indent, l4, "\n    ");
    OccursAfter(indent, l3, r4);
    ContainsAfterPrefix(indent + l3, r4, l4);
    OccursAfter(indent, l2, r3);
    ContainsAfterPrefix(indent + l2, r3, l3);
    ContainsAfterPrefix(indent + l2, r3, l4);
    OccursAfter(indent, l1, r2);
    ContainsAfterPrefix(indent + l1, r2, l2);
    ContainsAfterPrefix(indent + l1, r2, l3);
    ContainsAfterPrefix(indent + l1, r2, l4);
    r1
  }

  /** The form fields are all filled in: the image, description and
      technician name are non-empty and a location was captured. */
  predicate Complete<L>(image: string, description: string, location: Option<L>, monteurName: string)
  {
    image != "" && description != "" && location.Some? && monteurName != ""
  }

  /** The pre-send guard and the message. `coords` renders a location's
      latitude and longitude as text. */
  function SendEmail<L>(image: string, description: string, location: Option<L>, monteurName: string,
                        category: string, coords: L -> (string, string)): (r: SendResult)
    ensures r.MissingFields? <==> image == "" || description == "" || location.None? || monteurName == ""
    ensures r.Compose? ==> r.options.attachments == [image]
    ensures r.Compose? ==> && |r.options.subject| == |SubjectPrefix| + |category|
                           && r.options.subject[..|SubjectPrefix|] == SubjectPrefix
                           && r.options.subject[|SubjectPrefix|..] == category
    ensures r.Compose? ==> && Contains(r.options.body, "Monteur: " + monteurName)
                           && Contains(r.options.body, "Categorie: " + category)
                           && Contains(r.options.body, "Beschrijving: " + description)
  {
    if !Complete(image, description, location, monteurName) then MissingFields
    else
      var (latitude, longitude) := coords(location.value);
      Compose(MailOptions(
        [image],
        Subject(category),
        Body(monteurName, category, description, LocationText(latitude, longitude))))
  }

  /** Two messages that the guard lets through carry the same subject
      exactly when they are about the same category. */
  lemma SendEmailSubjects<L>(image: string, description: string, location: Option<L>, monteurName: string,
                             c1: string, c2: string, coords: L -> (string, string))
    requires Complete(image, description, location, monteurName)
    ensures SendEmail(image, description, location, monteurName, c1, coords).Compose?
    ensures SendEmail(image, description, location, monteurName, c1, coords).options.subject
            == SendEmail(image, description, location, monteurName, c2, coords).options.subject
            <==> c1 == c2
  {
    SubjectInjective(c1, c2);
  }
}
