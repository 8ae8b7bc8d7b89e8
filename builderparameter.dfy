/** An email built through a builder that only a send function creates:
    the caller passes the build steps, the send function runs them on a
    fresh builder and sends the result. */
module BuilderParameter {

  datatype Email = Email(from: string, to: string, subject: string, body: string)

  const Blank := Email("", "", "", "")

  class EmailBuilder {
    var email: Email

    constructor ()
      ensures email == Blank
    {
      email := Blank;
    }

    /** Sets the sender. An address without '@' only draws a warning on the
        console: the field is written all the same. */
    method From(from: string) returns (eb: EmailBuilder)
      modifies this
      ensures eb == this
      ensures email == old(email).(from := from)
    {
      email := email.(from := from);
      eb := this;
    }

    /** Sets the recipient, likewise whether or not it contains '@'. */
    method To(to: string) returns (eb: EmailBuilder)
      modifies this
      ensures eb == this
      ensures email == old(email).(to := to)
    {
      email := email.(to := to);
      eb := this;
    }

    method WithSubject(subject: string) returns (eb: EmailBuilder)
      modifies this
      ensures eb == this
      ensures email == old(email).(subject := subject)
    {
      email := email.(subject := subject);
      eb := this;
    }

    method WithBody(body: string) returns (eb: EmailBuilder)
      modifies this
      ensures eb == this
      ensures email == old(email).(body := body)
    {
      email := email.(body := body);
      eb := this;
    }
  }

  /** One builder call inside a build action. */
  datatype BuildStep = SetFrom(from: string) | SetTo(to: string) | SetSubject(subject: string) | SetBody(body: string)

  /** The email after the steps, in order, starting from e. */
  function Apply(steps: seq<BuildStep>, e: Email): Email
  {
    if steps == [] then e
    else
      var prev := Apply(steps[..|steps| - 1], e);
      match steps[|steps| - 1]
      case SetFrom(s) => prev.(from := s)
      case SetTo(s) => prev.(to := s)
      case SetSubject(s) => prev.(subject := s)
      case SetBody(s) => prev.(body := s)
  }

  /** Running two actions one after the other is running their
      concatenation. */
  lemma {:induction false} ApplyAppend(first: seq<BuildStep>, second: seq<BuildStep>, e: Email)
    ensures Apply(first + second, e) == Apply(second, Apply(first, e))
  {
    if second == [] {
      assert first + second == first;
    } else {
      var front := second[..|second| - 1];
      ApplyAppend(first, front, e);
      assert (first + second)[..|first + second| - 1] == first + front;
    }
  }

  /** A field no step writes keeps its starting value. */
  lemma {:induction false} UnwrittenSubjectKept(steps: seq<BuildStep>, e: Email)
    requires forall k :: 0 <= k < |steps| ==> !steps[k].SetSubject?
    ensures Apply(steps, e).subject == e.subject
  {
    if steps != [] {
      UnwrittenSubjectKept(steps[..|steps| - 1], e);
    }
  }

  /** Runs an action's steps on a builder through its fluent calls. */
  method Run(eb: EmailBuilder, steps: seq<BuildStep>)
    modifies eb
    ensures eb.email == Apply(steps, old(eb.email))
  {
    for i := 0 to |steps|
      invariant eb.email == Apply(steps[..i], old(eb.email))
    {
      assert steps[..i + 1][..i] == steps[..i];
      var b: EmailBuilder;
      match steps[i]
      case SetFrom(s) => b := eb.From(s);
      case SetTo(s) => b := eb.To(s);
      case SetSubject(s) => b := eb.WithSubject(s);
      case SetBody(s) => b := eb.WithBody(s);
    }
    assert steps[..|steps|] == steps;
  }

  /** Runs the action exactly once on a new builder and returns the email
      handed to the sender: the action applied to a blank email. */
  method SendEmail(action: seq<BuildStep>) returns (sent: Email)
    ensures sent == Apply(action, Blank)
  {
    var builder := new EmailBuilder();
    Run(builder, action);
    sent := builder.email;
  }

  /** The demonstration's action fills all four fields. */
  method SendDemo() returns (sent: Email)
    ensures sent == Email("foo@bar.com", "bar@baz.com", "Meeting", "Hello, do you want to meet?")
  {
    var f, t, j, b := SetFrom("foo@bar.com"), SetTo("bar@baz.com"), SetSubject("Meeting"), SetBody("Hello, do you want to meet?");
    sent := SendEmail([f, t, j, b]);
    assert [f, t, j, b][..3] == [f, t, j] && [f, t, j][..2] == [f, t] && [f, t][..1] == [f] && [f][..0] == [];
    assert Apply([f], Blank) == Email("foo@bar.com", "", "", "");
    assert Apply([f, t], Blank) == Email("foo@bar.com", "bar@baz.com", "", "");
    assert Apply([f, t, j], Blank) == Email("foo@bar.com", "bar@baz.com", "Meeting", "");
  }
}
