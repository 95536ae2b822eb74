/** The decision rules of the habit page: the seven-tier colour classification
    of cards and score buttons, the priority label, which score button is
    disabled while a score is in flight, which buttons are interactive at all,
    and the login form's validation. Colours and markup are abstracted to the
    tier or label they encode. */
module HabitsData {
  import opened Wrappers
  import opened HabitsApi

  // ---------------------------------------------------------------------------
  // Value tiers
  // ---------------------------------------------------------------------------

  /** The seven colour tiers, named by the exclusive lower bound of each
      (blue, sky, green, yellow, orange, red, dark red on the card). */
  datatype Tier = Above10 | Above5 | Above1 | AboveMinus1 | AboveMinus10 | AboveMinus20 | Lowest

  /** Position of a tier, from 0 (lowest) to 6 (highest). */
  function Rank(t: Tier): nat
  {
    match t
    case Lowest => 0
    case AboveMinus20 => 1
    case AboveMinus10 => 2
    case AboveMinus1 => 3
    case Above1 => 4
    case Above5 => 5
    case Above10 => 6
  }

  /** The exclusive lower bound of every tier but the lowest. */
  function LowerBound(t: Tier): real
    requires t != Lowest
  {
    match t
    case Above10 => 10.0
    case Above5 => 5.0
    case Above1 => 1.0
    case AboveMinus1 => -1.0
    case AboveMinus10 => -10.0
    case AboveMinus20 => -20.0
  }

  /** The tier just above t. */
  function Next(t: Tier): Tier
    requires t != Above10
  {
    match t
    case Lowest => AboveMinus20
    case AboveMinus20 => AboveMinus10
    case AboveMinus10 => AboveMinus1
    case AboveMinus1 => Above1
    case Above1 => Above5
    case Above5 => Above10
  }

  /** The cascade of `HabitCard`'s class: the first bound the value exceeds.
      A value lies strictly above its tier's bound and at or below the bound
      of the tier above. */
  function CardTier(value: real): (t: Tier)
    ensures t != Lowest ==> value > LowerBound(t)
    ensures t != Above10 ==> value <= LowerBound(Next(t))
  {
    if value > 10.0 then Above10
    else if value > 5.0 then Above5
    else if value > 1.0 then Above1
    else if value > -1.0 then AboveMinus1
    else if value > -10.0 then AboveMinus10
    else if value > -20.0 then AboveMinus20
    else Lowest
  }

  /** The classification as a table of (exclusive lower bound, tier) pairs,
      highest first, scanned from the top. */
  const Thresholds: seq<(real, Tier)> := [
    (10.0, Above10), (5.0, Above5), (1.0, Above1), (-1.0, AboveMinus1),
    (-10.0, AboveMinus10), (-20.0, AboveMinus20)]

  function Scan(table: seq<(real, Tier)>, value: real): Tier
  {
    if |table| == 0 then Lowest
    else if value > table[0].0 then table[0].1
    else Scan(table[1..], value)
  }

  /** The cascade and the table scan agree on every value. */
  lemma CardTierIsTableScan(value: real)
    ensures CardTier(value) == Scan(Thresholds, value)
  {
    var t0 := Thresholds;
    var t1 := [(5.0, Above5), (1.0, Above1), (-1.0, AboveMinus1), (-10.0, AboveMinus10), (-20.0, AboveMinus20)];
    var t2 := [(1.0, Above1), (-1.0, AboveMinus1), (-10.0, AboveMinus10), (-20.0, AboveMinus20)];
    var t3 := [(-1.0, AboveMinus1), (-10.0, AboveMinus10), (-20.0, AboveMinus20)];
    var t4 := [(-10.0, AboveMinus10), (-20.0, AboveMinus20)];
    var t5 := [(-20.0, AboveMinus20)];
    assert t0[1..] == t1 && t1[1..] == t2 && t2[1..] == t3;
    assert t3[1..] == t4 && t4[1..] == t5 && t5[1..] == [];
    assert Scan(t5, value) == if value > -20.0 then AboveMinus20 else Lowest;
    assert Scan(t4, value) == if value > -10.0 then AboveMinus10 else Scan(t5, value);
    assert Scan(t3, value) == if value > -1.0 then AboveMinus1 else Scan(t4, value);
    assert Scan(t2, value) == if value > 1.0 then Above1 else Scan(t3, value);
    assert Scan(t1, value) == if value > 5.0 then Above5 else Scan(t2, value);
    assert Scan(t0, value) == if value > 10.0 then Above10 else Scan(t1, value);
  }

  /** The tier is exactly determined by the bounds: a value belongs to tier t
      iff it is above t's bound and not above the next tier's bound. */
  lemma CardTierCharacterized(value: real, t: Tier)
    ensures CardTier(value) == t <==>
      (t != Lowest ==> value > LowerBound(t)) && (t != Above10 ==> value <= LowerBound(Next(t)))
  {
  }

  /** A larger value never lands in a lower tier. */
  lemma CardTierMonotone(v1: real, v2: real)
    requires v1 <= v2
    ensures Rank(CardTier(v1)) <= Rank(CardTier(v2))
  {
  }

  /** The bounds are exclusive at the lower edge. */
  lemma CardTierBoundaries(v: real)
    ensures CardTier(10.0) == Above5 && CardTier(11.0) == Above10
    ensures CardTier(-20.0) == Lowest && CardTier(-19.5) == AboveMinus20
    ensures v <= -20.0 ==> CardTier(v) == Lowest
  {
  }

  // ---------------------------------------------------------------------------
  // Score buttons
  // ---------------------------------------------------------------------------

  /** A button's look: the grey not-allowed style, or coloured by a tier. */
  datatype ButtonStyle = Inert | Tinted(tier: Tier)

  /** What `HabitButton` renders: its style, whether it carries the click
      handler, and whether it carries the `disabled` attribute. */
  datatype ButtonView = ButtonView(style: ButtonStyle, handler: bool, disabled: bool)

  /** `HabitButton`: `onClick` present or not, `disabled` as passed (an absent
      prop is false). Each branch of the source's cascade is written out. */
  function HabitButton(value: real, onClick: bool, disabled: bool): (b: ButtonView)
    ensures b.handler == onClick
    ensures b.style.Inert? <==> !onClick
  {
    if !onClick then ButtonView(Inert, false, disabled)
    else if value > 10.0 then ButtonView(Tinted(Above10), true, disabled)
    else if value > 5.0 then ButtonView(Tinted(Above5), true, disabled)
    else if value > 1.0 then ButtonView(Tinted(Above1), true, disabled)
    else if value > -1.0 then ButtonView(Tinted(AboveMinus1), true, disabled)
    else if value > -10.0 then ButtonView(Tinted(AboveMinus10), true, disabled)
    else if value > -20.0 then ButtonView(Tinted(AboveMinus20), true, disabled)
    // the last branch renders no `disabled` attribute
    else ButtonView(Tinted(Lowest), true, false)
  }

  /** An interactive button is coloured by the same tier as the card. */
  lemma ButtonAgreesWithCard(value: real, disabled: bool)
    ensures HabitButton(value, true, disabled).style == Tinted(CardTier(value))
  {
  }

  /** A button without a handler is always the grey one, whatever the value. */
  lemma InertWithoutHandler(value: real, disabled: bool)
    ensures HabitButton(value, false, disabled).style == Inert
    ensures HabitButton(value, false, disabled).disabled == disabled
  {
  }

  /** The interactive button passes `disabled` through in every tier except the
      lowest, where it is dropped. */
  lemma DisabledPassedExceptLowest(value: real, disabled: bool)
    ensures HabitButton(value, true, disabled).disabled == (disabled && CardTier(value) != Lowest)
  {
  }

  // ---------------------------------------------------------------------------
  // The score mutation and the two buttons of a card
  // ---------------------------------------------------------------------------

  /** The variables of the score mutation in flight. */
  datatype ScoreVars = ScoreVars(taskId: string, direction: ScoreDirection)

  /** The part of the score mutation's state the buttons read. */
  datatype Mutation = Mutation(isLoading: bool, variables: Option<ScoreVars>)

  /** The `disabled` expression of a score button: a score is loading, and it
      is for this habit and this direction. */
  function ScoreInFlight(m: Mutation, habitId: string, dir: ScoreDirection): (inFlight: bool)
    ensures inFlight <==> m.isLoading && m.variables == Some(ScoreVars(habitId, dir))
  {
    && m.isLoading
    && m.variables.Some?
    && m.variables.value.taskId == habitId
    && m.variables.value.direction == dir
  }

  /** Whether the habit accepts scoring in this direction. */
  function Allows(h: Habit, dir: ScoreDirection): bool
  {
    match dir
    case Up => h.up
    case Down => h.down
  }

  /** One of a card's two buttons: interactive when the habit allows that
      direction, otherwise the fallback button with no handler. */
  function ScoreButton(h: Habit, dir: ScoreDirection, m: Mutation): (b: ButtonView)
    ensures b.handler <==> Allows(h, dir)
  {
    if Allows(h, dir) then HabitButton(h.value, true, ScoreInFlight(m, h.id, dir))
    else HabitButton(h.value, false, false)
  }

  /** A score button is disabled exactly when its direction is allowed, a
      score for this habit and direction is loading, and the value is not in
      the lowest tier. */
  lemma ScoreButtonDisabledIff(h: Habit, dir: ScoreDirection, m: Mutation)
    ensures ScoreButton(h, dir, m).disabled <==>
      Allows(h, dir) && ScoreInFlight(m, h.id, dir) && CardTier(h.value) != Lowest
  {
  }

  /** Scoring one direction never disables the other direction's button, nor
      any button of another habit. */
  lemma ScoringDisablesOnlyItsButton(h: Habit, dir: ScoreDirection, other: ScoreDirection, m: Mutation)
    requires m.variables == Some(ScoreVars(h.id, dir))
    ensures other != dir ==> !ScoreButton(h, other, m).disabled
    ensures forall g: Habit :: g.id != h.id ==> !ScoreButton(g, other, m).disabled
  {
  }

  /** A fallback button is grey and never disabled. */
  lemma FallbackButtonInert(h: Habit, dir: ScoreDirection, m: Mutation)
    requires !Allows(h, dir)
    ensures ScoreButton(h, dir, m) == ButtonView(Inert, false, false)
  {
  }

  // ---------------------------------------------------------------------------
  // Priority label
  // ---------------------------------------------------------------------------

  datatype Label = Hard | Medium | Easy | Trivial

  /** The priority each label stands for. */
  function LabelPriority(l: Label): real
  {
    match l
    case Hard => 2.0
    case Medium => 1.5
    case Easy => 1.0
    case Trivial => 0.1
  }

  /** `HabitPriority`: the label of one of the four known priorities, and
      nothing for any other priority. */
  function PriorityLabel(priority: real): (r: Option<Label>)
    ensures r.Some? ==> LabelPriority(r.value) == priority
  {
    if priority == 2.0 then Some(Hard)
    else if priority == 1.5 then Some(Medium)
    else if priority == 1.0 then Some(Easy)
    else if priority == 0.1 then Some(Trivial)
    else None
  }

  /** The mapping is the inverse of LabelPriority: a priority gets label l
      exactly when it is l's priority. */
  lemma PriorityLabelRoundTrip(priority: real, l: Label)
    ensures PriorityLabel(priority) == Some(l) <==> priority == LabelPriority(l)
    ensures PriorityLabel(priority).None? <==>
      priority != 2.0 && priority != 1.5 && priority != 1.0 && priority != 0.1
  {
  }

  lemma PriorityLabelExamples()
    ensures PriorityLabel(2.0) == Some(Hard) && PriorityLabel(1.5) == Some(Medium)
    ensures PriorityLabel(1.0) == Some(Easy) && PriorityLabel(0.1) == Some(Trivial)
    ensures PriorityLabel(0.7) == None
  {
  }

  // ---------------------------------------------------------------------------
  // A whole card
  // ---------------------------------------------------------------------------

  /** One card of the habit grid: its tier, its down and up buttons, and its
      priority label. */
  datatype CardView = CardView(tier: Tier, down: ButtonView, up: ButtonView, priorityLabel: Option<Label>)

  function HabitCardView(h: Habit, m: Mutation): (c: CardView)
    ensures c.tier == CardTier(h.value)
    ensures c.priorityLabel == PriorityLabel(h.priority)
    ensures c.down.handler <==> h.down
    ensures c.up.handler <==> h.up
  {
    CardView(CardTier(h.value), ScoreButton(h, Down, m), ScoreButton(h, Up, m), PriorityLabel(h.priority))
  }

  /** Every interactive button of a card wears the card's colour. */
  lemma CardButtonsAgree(h: Habit, m: Mutation)
    ensures var c := HabitCardView(h, m);
      (c.down.handler ==> c.down.style == Tinted(c.tier)) &&
      (c.up.handler ==> c.up.style == Tinted(c.tier))
  {
  }

  // ---------------------------------------------------------------------------
  // Login form
  // ---------------------------------------------------------------------------

  const InvalidCredentialsMessage: string := "Please enter a valid user ID and token."

  /** What submitting the form leaves: the credentials signal and the alert
      shown, if any. */
  datatype FormResult = FormResult(credentials: Option<Credentials>, alert: Option<string>)

  /** `UserForm`'s submit handler: an empty user id or token raises the alert
      and leaves the signal alone; otherwise the signal becomes exactly the
      entered pair. */
  function SubmitForm(current: Option<Credentials>, userId: string, token: string): (r: FormResult)
    ensures userId == "" || token == "" ==>
      r.credentials == current && r.alert == Some(InvalidCredentialsMessage)
    ensures userId != "" && token != "" ==>
      r.credentials == Some(Credentials(userId, token)) && r.alert.None?
  {
    if userId == "" || token == "" then FormResult(current, Some(InvalidCredentialsMessage))
    else FormResult(Some(Credentials(userId, token)), None)
  }

  /** After a successful submit every call authenticates with the entered
      user id and token. */
  lemma SubmitThenRequest(current: Option<Credentials>, userId: string, token: string, e: Endpoint)
    requires userId != "" && token != ""
    ensures var req := BuildRequest(SubmitForm(current, userId, token).credentials, e);
      req.Some? && req.value.headers[UserHeader] == userId && req.value.headers[KeyHeader] == token
  {
  }

  /** From the signed-out state, a rejected submit issues no request. */
  lemma RejectedSubmitStaysSignedOut(userId: string, token: string, e: Endpoint)
    requires userId == "" || token == ""
    ensures BuildRequest(SubmitForm(None, userId, token).credentials, e).None?
  {
  }
}
