/**
 * The validation and saving rules of streams/forms.py: a scheduled live
 * needs a date, and registration copies the cleaned email onto the new
 * account.
 */
module Forms {
  import opened Wrappers
  import opened Models
  import Tasks

  /** The cleaned fields of a live form. */
  datatype LiveFormData = LiveFormData(
    title: string,
    videoFile: string,
    streamKey: Option<KeyId>,
    isScheduled: bool,
    scheduledAt: Option<Time>)

  const ScheduleRequired: string :=
    "La date et heure de programmation sont requises pour une diffusion programmée."

  /**
   * `LiveForm.clean`: scheduled input without a date is rejected with the
   * schedule message; every other input is accepted and handed back unchanged.
   */
  function CleanLiveForm(data: LiveFormData): (r: Result<LiveFormData, string>)
    ensures r.Failure? <==> data.isScheduled && data.scheduledAt.None?
    ensures r.Failure? ==> r.error == ScheduleRequired
    ensures r.Success? ==> r.value == data
  {
    if data.isScheduled && data.scheduledAt.None? then Failure(ScheduleRequired) else Success(data)
  }

  /** The live `create_live` saves from accepted form data for its owner. */
  function LiveFromForm(owner: UserId, data: LiveFormData): Live
  {
    NewLive(owner, data.title, data.videoFile, data.streamKey, data.scheduledAt, data.isScheduled)
  }

  /** A scheduled live that passed validation is picked up by the scheduler
      from its scheduled time on, and never before. */
  lemma AcceptedScheduledLiveBecomesDue(owner: UserId, data: LiveFormData, id: LiveId,
                                        lives: map<LiveId, Live>, now: Time)
    requires CleanLiveForm(data).Success? && data.isScheduled
    ensures data.scheduledAt.Some?
    ensures var l := LiveFromForm(owner, data);
      id in Tasks.DueLives(lives[id := l], now) <==> data.scheduledAt.value <= now
  {
  }

  /** The cleaned fields of the registration form that reach the account. */
  datatype Registration = Registration(username: string, email: string)

  /** The account built by `UserRegistrationForm.save` and the user table after it. */
  datatype Saved = Saved(user: User, users: map<UserId, User>)

  /**
   * `UserRegistrationForm.save`: the new account carries the cleaned email
   * and starts neither approved nor admin; it is written under the fresh
   * id only when `commit` is true.
   */
  function SaveRegistration(users: map<UserId, User>, freshId: UserId, form: Registration, commit: bool): (r: Saved)
    ensures r.user.email == form.email && r.user.username == form.username
    ensures !r.user.isApproved && !r.user.isAdmin
    ensures commit ==> freshId in r.users && r.users[freshId] == r.user
    ensures commit ==> forall id :: id in users && id != freshId ==> id in r.users && r.users[id] == users[id]
    ensures !commit ==> r.users == users
  {
    var built := NewUser(form.username, "");
    var u := built.(email := form.email);
    Saved(u, if commit then users[freshId := u] else users)
  }

  /** A freshly registered account cannot start any live until an admin approves it. */
  lemma RegisteredUserCannotStart(users: map<UserId, User>, freshId: UserId, form: Registration,
                                  commit: bool, l: Live)
    ensures !CanStart(l, SaveRegistration(users, freshId, form, commit).user)
  {
  }
}
