/** The "Busy Mode" widget: the busy switch, the auto-reply template and its
    edit mode, mirrored from the user's `busy_mode_settings` row. */
module BusyMode {
  import opened Remote

  /** The settings row as the store returns it; the template may be null. */
  datatype BusySettings = BusySettings(enabled: bool, autoReplyTemplate: Option<string>)

  /** The two patches the widget sends. */
  datatype BusyPatch = SetEnabled(enabled: bool) | SetTemplate(template: string)

  /** This widget never inserts. */
  type BusyRequest = Request<(), BusyPatch>

  const Table := "busy_mode_settings"

  const DefaultTemplate := "I'm taking some time for myself right now. I'll get back to you when I'm ready."

  function FetchRequest(user: UserId): BusyRequest
  {
    Select(Table, UserIs(user), Unordered, None, true)
  }

  /** The template kept after a fetch: the stored one only when it is
      present and not the empty string (a truthiness test), else the current one. */
  function FetchedTemplate(current: string, stored: Option<string>): (template: string)
    ensures template == current || (stored.Some? && template == stored.value)
    ensures stored.None? || stored.value == "" ==> template == current
    ensures stored.Some? && stored.value != "" ==> template == stored.value
    ensures current != "" ==> template != ""
  {
    if stored.Some? && stored.value != "" then stored.value else current
  }

  /** The widget's state: the signed-in user, the switch, the template and
      whether the template is being edited. */
  class Widget {
    const user: Option<UserId>
    var enabled: bool
    var template: string
    var editing: bool

    /** Before any fetch: switched off, the default template, not editing. */
    constructor (user: Option<UserId>)
      ensures this.user == user
      ensures !enabled && template == DefaultTemplate && !editing
    {
      this.user := user;
      enabled := false;
      template := DefaultTemplate;
      editing := false;
    }

    /** The fetch effect: with a user, select the single settings row; when
        it comes back, take its switch, and its template only if that is
        non-empty. With no row the current values remain. */
    method Fetch(data: Option<BusySettings>) returns (sent: Option<BusyRequest>)
      modifies this
      ensures sent == if user.Some? then Some(FetchRequest(user.value)) else None
      ensures enabled == if user.Some? && data.Some? then data.value.enabled else old(enabled)
      ensures template == if user.Some? && data.Some? then FetchedTemplate(old(template), data.value.autoReplyTemplate) else old(template)
      ensures editing == old(editing)
    {
      sent := None;
      if user.Some? {
        sent := Some(FetchRequest(user.value));
        if data.Some? {
          enabled := data.value.enabled;
          template := FetchedTemplate(template, data.value.autoReplyTemplate);
        }
      }
    }

    /** `toggleBusy(val)`: the switch follows `val` even with no user; the
        update, filtered by the user's id, is sent only when there is one,
        and its answer is not read. */
    method ToggleBusy(val: bool) returns (sent: Option<BusyRequest>)
      modifies this
      ensures enabled == val
      ensures template == old(template) && editing == old(editing)
      ensures sent == if user.Some? then Some(Update(Table, UserIs(user.value), SetEnabled(val))) else None
    {
      enabled := val;
      sent := None;
      if user.Some? {
        sent := Some(Update(Table, UserIs(user.value), SetEnabled(val)));
      }
    }

    /** `saveTemplate`: editing always ends; the current template is sent,
        filtered by the user's id, only when there is a user. */
    method SaveTemplate() returns (sent: Option<BusyRequest>)
      modifies this
      ensures !editing
      ensures enabled == old(enabled) && template == old(template)
      ensures sent == if user.Some? then Some(Update(Table, UserIs(user.value), SetTemplate(template))) else None
    {
      editing := false;
      sent := None;
      if user.Some? {
        sent := Some(Update(Table, UserIs(user.value), SetTemplate(template)));
      }
    }

    /** Typing in the template box. */
    method EditTemplate(text: string)
      modifies this
      ensures template == text
      ensures enabled == old(enabled) && editing == old(editing)
    {
      template := text;
    }

    /** Leaving the template box saves it. The box is on the page only
        while editing, so it can lose focus only then. */
    method Blur() returns (sent: Option<BusyRequest>)
      requires editing
      modifies this
      ensures !editing
      ensures enabled == old(enabled) && template == old(template)
      ensures sent == if user.Some? then Some(Update(Table, UserIs(user.value), SetTemplate(template))) else None
    {
      sent := SaveTemplate();
    }

    /** The pencil button: while editing it saves, otherwise it opens the
        editor and sends nothing. */
    method PencilClick() returns (sent: Option<BusyRequest>)
      modifies this
      ensures editing == !old(editing)
      ensures enabled == old(enabled) && template == old(template)
      ensures old(editing) ==> sent == if user.Some? then Some(Update(Table, UserIs(user.value), SetTemplate(template))) else None
      ensures !old(editing) ==> sent == None
    {
      if editing {
        sent := SaveTemplate();
      } else {
        editing := true;
        sent := None;
      }
    }
  }

  /** Editing as it happens on the page. A click on the pencil opens the
      editor and sends nothing. Typing needs the focus in the template box,
      so the next click on the pencil first blurs the box: the blur sends
      the typed text, once, for the signed-in user, and ends editing. The
      click then finds the editor closed, opens it again and sends nothing. */
  method EditRoundTrip(u: UserId, text: string)
    returns (onOpen: Option<BusyRequest>, onBlur: Option<BusyRequest>, onClick: Option<BusyRequest>, reopened: bool)
    ensures onOpen == None
    ensures onBlur == Some(Update(Table, UserIs(u), SetTemplate(text)))
    ensures onClick == None
    ensures reopened
  {
    var w := new Widget(Some(u));
    onOpen := w.PencilClick();
    w.EditTemplate(text);
    onBlur := w.Blur();
    onClick := w.PencilClick();
    reopened := w.editing;
  }
}
