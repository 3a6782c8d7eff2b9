/** `formatMessage`: a message record gains the UI fields `sender` and
    `timestamp`; every other field is copied by the object spread. */
module MessageFormatting {
  import opened Types

  /** A record already carries the UI fields derived from its own data. */
  predicate IsFormatted(m: Message) {
    m.sender == Some(SenderOf(m.isAdmin)) && m.timestamp == Some(m.createdAt)
  }

  function FormatMessage(m: Message): (r: Message)
    ensures r.sender == Some(Admin) <==> m.isAdmin
    ensures r.sender == Some(User) <==> !m.isAdmin
    ensures r.timestamp == Some(m.createdAt)
    ensures r.(sender := m.sender, timestamp := m.timestamp) == m
    ensures IsFormatted(r)
  {
    m.(sender := Some(SenderOf(m.isAdmin)), timestamp := Some(m.createdAt))
  }

  /** Formatting a formatted record changes nothing, so formatting twice is formatting once. */
  lemma FormattedIsFixedPoint(m: Message)
    requires IsFormatted(m)
    ensures FormatMessage(m) == m
  {
  }

  lemma FormatIdempotent(m: Message)
    ensures FormatMessage(FormatMessage(m)) == FormatMessage(m)
  {
    FormattedIsFixedPoint(FormatMessage(m));
  }

  /** Two records that agree on everything but the UI fields format alike. */
  lemma FormatIgnoresUiFields(m: Message, s: Option<Sender>, t: Option<int>)
    ensures FormatMessage(m.(sender := s, timestamp := t)) == FormatMessage(m)
  {
  }

  /** `rows.map(formatMessage)`. */
  function FormatAll(rows: seq<Message>): (r: seq<Message>)
    ensures |r| == |rows|
    ensures forall i :: 0 <= i < |rows| ==> r[i] == FormatMessage(rows[i])
  {
    if rows == [] then [] else [FormatMessage(rows[0])] + FormatAll(rows[1..])
  }
}
