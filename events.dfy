/**
 * Event records, object references, emitted events and the one message
 * template rewrite the generators use: the first "%s" of a template is
 * replaced by the subject's name.
 */
module Events {

  /** The type of a Kubernetes event: v1.EventTypeNormal or v1.EventTypeWarning. */
  datatype Severity = Normal | Warning

  /** One catalog entry: event type, reason code and message template. */
  datatype EventRecord = EventRecord(severity: Severity, reason: string, message: string)

  /** The kinds of object an event can be attached to. */
  datatype Kind = Pod | Deployment | Node

  /** The object an event is recorded against. */
  datatype ObjectRef = ObjectRef(kind: Kind, name: string)

  /** One call of the event recorder: Event(object, type, reason, message). */
  datatype Emission = Emission(subject: ObjectRef, severity: Severity, reason: string, message: string)

  /** A catalog entry recorded against `subject` with its message as written. */
  function Verbatim(subject: ObjectRef, e: EventRecord): Emission
  {
    Emission(subject, e.severity, e.reason, e.message)
  }

  /** The reason codes of a stretch of the event log, in order. */
  function Reasons(log: seq<Emission>): (r: seq<string>)
    ensures |r| == |log|
    ensures forall j :: 0 <= j < |log| ==> r[j] == log[j].reason
  {
    if |log| == 0 then [] else Reasons(log[..|log| - 1]) + [log[|log| - 1].reason]
  }

  /**
   * Replaying a whole catalog against one subject, messages verbatim: what
   * the pod and deployment generators do for every resource they created.
   */
  function Replay(subject: ObjectRef, catalog: seq<EventRecord>): seq<Emission>
  {
    if |catalog| == 0 then []
    else Replay(subject, catalog[..|catalog| - 1]) + [Verbatim(subject, catalog[|catalog| - 1])]
  }

  /** Replay keeps catalog order: the j-th emission is the j-th entry, unchanged, against the subject. */
  lemma {:induction false} ReplayAt(subject: ObjectRef, catalog: seq<EventRecord>)
    ensures |Replay(subject, catalog)| == |catalog|
    ensures forall j :: 0 <= j < |catalog| ==> Replay(subject, catalog)[j] == Verbatim(subject, catalog[j])
  {
    if |catalog| > 0 {
      ReplayAt(subject, catalog[..|catalog| - 1]);
    }
  }

  /** The reason codes emitted for one subject are exactly the catalog's, in order. */
  lemma ReplayReasons(subject: ObjectRef, catalog: seq<EventRecord>)
    ensures Reasons(Replay(subject, catalog)) == seq(|catalog|, j requires 0 <= j < |catalog| => catalog[j].reason)
  {
    ReplayAt(subject, catalog);
  }

  /** One more row of m entries: the arithmetic step of the log-length lemmas. */
  lemma NextRow(rows: nat, m: nat)
    ensures (rows + 1) * m == rows * m + m
  {
  }

  /** Appending to a log that already ends in a stretch extends that stretch. */
  lemma Associative<T>(a: seq<T>, b: seq<T>, c: seq<T>)
    ensures (a + b) + c == a + (b + c)
  {
  }

  // ---------------------------------------------------------------------
  // Message templating
  // ---------------------------------------------------------------------

  /** The positional placeholder a node message may carry for the node's name. */
  const Placeholder: string := "%s"

  /** A "%s" starts at index i of t. */
  predicate PlaceholderAt(t: string, i: int)
  {
    0 <= i < |t| - 1 && t[i] == '%' && t[i + 1] == 's'
  }

  /** strings.Contains(t, "%s"). */
  predicate HasPlaceholder(t: string)
  {
    exists i | 0 <= i < |t| - 1 :: PlaceholderAt(t, i)
  }

  /** No '%' at all: no placeholder and no other formatting verb. */
  predicate NoPercent(t: string)
  {
    forall c | c in t :: c != '%'
  }

  /** The number of (possibly overlapping) "%s" occurrences in t. */
  function PlaceholderCount(t: string): nat
  {
    if |t| < 2 then 0
    else (if t[0] == '%' && t[1] == 's' then 1 else 0) + PlaceholderCount(t[1..])
  }

  /** t with its first "%s" replaced by name (t itself when there is none). */
  function Substitute(t: string, name: string): string
  {
    if |t| < 2 then t
    else if t[0] == '%' && t[1] == 's' then name + t[2..]
    else [t[0]] + Substitute(t[1..], name)
  }

  /**
   * The message the node generator emits: the template with the node's
   * name substituted when it contains "%s", the template unchanged
   * otherwise (node.go:286-290). On '%'-free text around a single "%s"
   * this is what fmt.Sprintf(template, name) returns; a template without
   * "%s" never reaches Sprintf, because of the strings.Contains test.
   */
  function Render(template: string, name: string): string
  {
    if HasPlaceholder(template) then Substitute(template, name) else template
  }

  /** Substitution replaces the first placeholder and keeps both sides of it intact. */
  lemma {:induction false} SubstituteFirst(p: string, q: string, name: string)
    requires !HasPlaceholder(p)
    ensures Substitute(p + Placeholder + q, name) == p + name + q
  {
    var t := p + Placeholder + q;
    if |p| == 0 {
      assert t == Placeholder + q;
      assert t[2..] == q;
    } else {
      var rest := p[1..];
      assert t[1..] == rest + Placeholder + q;
      assert !PlaceholderAt(t, 0) by {
        if |p| > 1 {
          assert t[1] == p[1];
          assert !PlaceholderAt(p, 0);
        } else {
          assert t[1] == '%';
        }
      }
      NoPlaceholderTail(p);
      SubstituteFirst(rest, q, name);
      assert [p[0]] + rest == p;
      assert [p[0]] + (rest + name + q) == p + name + q;
    }
  }

  /** The tail of a placeholder-free text is placeholder-free. */
  lemma NoPlaceholderTail(p: string)
    requires |p| > 0 && !HasPlaceholder(p)
    ensures !HasPlaceholder(p[1..])
  {
    forall i | 0 <= i < |p[1..]| - 1
      ensures !PlaceholderAt(p[1..], i)
    {
      assert !PlaceholderAt(p, i + 1);
    }
  }

  /** t is p, then its first placeholder, then q. */
  ghost predicate SplitsAt(t: string, p: string, q: string)
  {
    t == p + Placeholder + q && !HasPlaceholder(p)
  }

  /** A template with a placeholder splits at its first one. */
  lemma {:induction false} FirstPlaceholder(t: string)
    requires HasPlaceholder(t)
    ensures exists p, q :: SplitsAt(t, p, q)
  {
    var i :| 0 <= i < |t| - 1 && PlaceholderAt(t, i);
    var before, after := t[..i], t[i + 2..];
    assert t[i..i + 2] == Placeholder;
    assert t == before + Placeholder + after;
    if HasPlaceholder(before) {
      FirstPlaceholder(before);
      var p, q :| SplitsAt(before, p, q);
      Regroup(p, Placeholder, q, Placeholder, after);
      assert SplitsAt(t, p, q + Placeholder + after);
    } else {
      assert SplitsAt(t, before, after);
    }
  }

  /** Regrouping a five-part concatenation around its second part. */
  lemma Regroup<T>(a: seq<T>, b: seq<T>, c: seq<T>, d: seq<T>, e: seq<T>)
    ensures (a + b + c) + d + e == a + b + (c + d + e)
  {
  }

  /**
   * Rendering, stated without its body: a template whose first placeholder
   * follows `p` becomes p + name + q.
   */
  lemma RenderSplit(p: string, q: string, name: string)
    requires !HasPlaceholder(p)
    ensures HasPlaceholder(p + Placeholder + q)
    ensures Render(p + Placeholder + q, name) == p + name + q
  {
    var t := p + Placeholder + q;
    assert PlaceholderAt(t, |p|);
    SubstituteFirst(p, q, name);
  }

  /**
   * Any message containing "%s" is rendered with its first "%s" replaced by
   * the name and the text on both sides of it kept.
   */
  lemma RenderFirst(t: string, name: string)
    requires HasPlaceholder(t)
    ensures exists p, q :: SplitsAt(t, p, q) && Render(t, name) == p + name + q
  {
    FirstPlaceholder(t);
    var p, q :| SplitsAt(t, p, q);
    RenderSplit(p, q, name);
  }

  /** A '%'-free text has no placeholder. */
  lemma {:induction false} NoPercentCount(t: string)
    requires NoPercent(t)
    ensures PlaceholderCount(t) == 0 && !HasPlaceholder(t)
  {
    NoPercentTail(t);
    if |t| >= 2 {
      NoPercentCount(t[1..]);
    }
  }

  /** No character of a '%'-free text is '%', and its tail is '%'-free too. */
  lemma NoPercentTail(t: string)
    requires NoPercent(t)
    ensures forall i :: 0 <= i < |t| ==> t[i] != '%'
    ensures |t| > 0 ==> NoPercent(t[1..])
  {
    forall i | 0 <= i < |t|
      ensures t[i] != '%'
    {
      assert t[i] in t;
    }
    if |t| > 0 {
      forall c | c in t[1..]
        ensures c != '%'
      {
        var i :| 0 <= i < |t[1..]| && t[1..][i] == c;
        assert t[i + 1] == c;
      }
    }
  }

  /** Joining two '%'-free texts gives a '%'-free text. */
  lemma NoPercentJoin(a: string, b: string)
    requires NoPercent(a) && NoPercent(b)
    ensures NoPercent(a + b)
  {
    forall c | c in a + b
      ensures c != '%'
    {
      var i :| 0 <= i < |a + b| && (a + b)[i] == c;
      if i < |a| {
        assert a[i] == c;
      } else {
        assert b[i - |a|] == c;
      }
    }
  }

  /** The message template p + "%s" + q: text around one placeholder for the subject's name. */
  function Template(p: string, q: string): string
  {
    p + Placeholder + q
  }

  /**
   * A template Render handles as the node generator does: no '%' at all
   * (recorded as written, never passed to Sprintf), or '%'-free text around
   * a single "%s" (which fmt.Sprintf(template, name) fills as Render does).
   */
  ghost predicate WellFormedTemplate(t: string)
  {
    NoPercent(t) || exists p, q {:trigger Template(p, q)} :: t == Template(p, q) && NoPercent(p) && NoPercent(q)
  }

  /** '%'-free text around one "%s" is a well-formed template. */
  lemma TemplateShape(p: string, q: string)
    requires NoPercent(p) && NoPercent(q)
    ensures WellFormedTemplate(Template(p, q))
  {
  }

  /**
   * A template made of '%'-free text around one "%s" holds exactly one
   * placeholder and renders to that text around the name.
   */
  lemma SinglePlaceholder(p: string, q: string, name: string)
    requires NoPercent(p) && NoPercent(q)
    ensures HasPlaceholder(Template(p, q)) && PlaceholderCount(Template(p, q)) == 1
    ensures Render(Template(p, q), name) == p + name + q
  {
    NoPercentCount(p);
    RenderSplit(p, q, name);
    SingleCount(p, q);
  }

  /**
   * A well-formed template holds at most one placeholder; without one it
   * is emitted byte for byte, with one the name takes its place.
   */
  lemma WellFormedRender(t: string, name: string)
    requires WellFormedTemplate(t)
    ensures PlaceholderCount(t) <= 1
    ensures HasPlaceholder(t) <==> PlaceholderCount(t) == 1
    ensures !HasPlaceholder(t) ==> Render(t, name) == t
    ensures HasPlaceholder(t) ==>
              exists p, q :: t == Template(p, q) && NoPercent(p) && NoPercent(q) && Render(t, name) == p + name + q
  {
    if NoPercent(t) {
      NoPercentCount(t);
    } else {
      var p, q :| t == Template(p, q) && NoPercent(p) && NoPercent(q);
      SinglePlaceholder(p, q, name);
    }
  }

  /** Every message of a catalog is a well-formed template. */
  ghost predicate AllWellFormed(catalog: seq<EventRecord>)
  {
    forall i | 0 <= i < |catalog| :: WellFormedTemplate(catalog[i].message)
  }

  /** Joining two catalogs of well-formed templates gives one. */
  lemma AllWellFormedJoin(a: seq<EventRecord>, b: seq<EventRecord>)
    requires AllWellFormed(a) && AllWellFormed(b)
    ensures AllWellFormed(a + b)
  {
    forall i | 0 <= i < |a + b|
      ensures WellFormedTemplate((a + b)[i].message)
    {
      if i >= |a| {
        assert (a + b)[i] == b[i - |a|];
      }
    }
  }

  /** In a catalog of well-formed templates, every entry has a well-formed message. */
  lemma AllWellFormedMembers(catalog: seq<EventRecord>)
    requires AllWellFormed(catalog)
    ensures forall e :: e in catalog ==> WellFormedTemplate(e.message)
  {
  }

  lemma {:induction false} SingleCount(p: string, q: string)
    requires NoPercent(p) && NoPercent(q)
    ensures PlaceholderCount(p + Placeholder + q) == 1
  {
    var t := p + Placeholder + q;
    if |p| == 0 {
      assert t[1..] == ['s'] + q;
      NoPercentCount(q);
      assert t[1..][1..] == q;
      if |q| > 0 {
        assert t[1..][0] == 's';
      }
    } else {
      NoPercentTail(p);
      assert t[0] == p[0] && t[0] != '%';
      assert t[1..] == p[1..] + Placeholder + q;
      SingleCount(p[1..], q);
    }
  }
}
