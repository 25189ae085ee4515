/** shortcuts/FavoriteShortcutReceiver.kt: the launcher shortcut that marks the
    wallpaper currently shown as a favourite on the server. The content
    queries, the provider lookup and the server call are inputs. */
module FavoriteShortcut {
  import opened Common
  import opened Models
  import opened Preferences

  const ImmichAuthority := "dev.abdus.apps.immich"
  const ActionFavorite := "dev.abdus.apps.immich.ACTION_FAVORITE_CURRENT"

  /** The first row of Muzei's current-artwork query: its provider's authority
      and its `_id` column, if there is one. */
  datatype CurrentArtwork = CurrentArtwork(providerAuthority: string, id: Option<int>)

  /** A toast: a literal message, or the success string resource. */
  datatype ShortcutToast = Message(text: string) | FavoriteSuccessResource

  /** The update sent, if any, and the toast shown, if any. */
  datatype ShortcutOutcome = ShortcutOutcome(update: Option<UpdateAssetsRequest>, toast: Option<ShortcutToast>)

  const NoArtwork := "No artwork currently displayed"
  const NoArtworkId := "Could not get artwork ID"
  const NotFromImmich := "Current wallpaper is not from Immich"
  const NoAssetId := "Could not get asset ID"
  const NotConfigured := "Immich is not configured"

  /** The five checks of `favoriteCurrentArtwork`, in order: whether each passes
      and the message shown when it is the first to fail. */
  function Checks(current: Option<CurrentArtwork>, lastAddedToken: Option<string>, config: Config): seq<(bool, string)> {
    [ (current.Some?, NoArtwork),
      (current.Some? && current.value.id.Some?, NoArtworkId),
      (current.Some? && current.value.providerAuthority == ImmichAuthority, NotFromImmich),
      (lastAddedToken.Some?, NoAssetId),
      (config.IsConfigured(), NotConfigured) ]
  }

  /** The message of the first check that fails, if one does. */
  function FirstFailure(checks: seq<(bool, string)>): (r: Option<string>)
    ensures r.None? <==> forall i :: 0 <= i < |checks| ==> checks[i].0
    ensures r.Some? ==> exists i :: 0 <= i < |checks| && !checks[i].0 && checks[i].1 == r.value
                                     && forall j :: 0 <= j < i ==> checks[j].0
  {
    if checks == [] then None
    else if !checks[0].0 then Some(checks[0].1)
    else
      var rest := FirstFailure(checks[1..]);
      if rest.Some? then
        var i :| 0 <= i < |checks| - 1 && !checks[1..][i].0 && checks[1..][i].1 == rest.value
                 && forall j :: 0 <= j < i ==> checks[1..][j].0;
        assert !checks[i + 1].0 && forall j :: 0 <= j < i + 1 ==> checks[j].0;
        rest
      else rest
  }

  /** `favoriteCurrentArtwork`. The asset id is the token of the provider's
      last-added artwork (`lastAddedToken`, absent also when the lookup fails);
      the `_id` read from the cursor is checked but not used. `call` is the
      outcome of creating the service and sending the update. */
  function FavoriteCurrentArtwork(current: Option<CurrentArtwork>, lastAddedToken: Option<string>,
                                  config: Config, call: Result<()>): (r: ShortcutOutcome)
    ensures r.toast.Some?
    ensures current.None? ==> r == ShortcutOutcome(None, Some(Message(NoArtwork)))
    ensures current.Some? && current.value.id.None? ==> r == ShortcutOutcome(None, Some(Message(NoArtworkId)))
    ensures current.Some? && current.value.id.Some? && current.value.providerAuthority != ImmichAuthority ==>
              r == ShortcutOutcome(None, Some(Message(NotFromImmich)))
    ensures r.update.Some? <==>
              current.Some? && current.value.id.Some? && current.value.providerAuthority == ImmichAuthority
              && lastAddedToken.Some? && config.IsConfigured()
    ensures r.update.Some? ==> r.update.value == UpdateAssetsRequest([lastAddedToken.value], Some(true))
    ensures r.update.Some? && call.Success? ==> r.toast == Some(FavoriteSuccessResource)
    ensures r.update.Some? && call.Failure? ==> r.toast == Some(Message("API error: " + call.message.GetOr("Unknown error")))
  {
    if current.None? then ShortcutOutcome(None, Some(Message(NoArtwork)))
    else if current.value.id.None? then ShortcutOutcome(None, Some(Message(NoArtworkId)))
    else if current.value.providerAuthority != ImmichAuthority then ShortcutOutcome(None, Some(Message(NotFromImmich)))
    else if lastAddedToken.None? then ShortcutOutcome(None, Some(Message(NoAssetId)))
    else if !config.IsConfigured() then ShortcutOutcome(None, Some(Message(NotConfigured)))
    else
      var request := UpdateAssetsRequest([lastAddedToken.value], Some(true));
      match call
      case Success(_) => ShortcutOutcome(Some(request), Some(FavoriteSuccessResource))
      case Failure(message) => ShortcutOutcome(Some(request), Some(Message("API error: " + message.GetOr("Unknown error"))))
  }

  /** The checks run in order: when no update is sent, the toast is the message
      of the first check that fails, and an update is sent exactly when none
      fails. */
  lemma {:induction false} FirstFailingCheckIsShown(current: Option<CurrentArtwork>, lastAddedToken: Option<string>,
                                                    config: Config, call: Result<()>)
    ensures var r := FavoriteCurrentArtwork(current, lastAddedToken, config, call);
      var failure := FirstFailure(Checks(current, lastAddedToken, config));
      && (r.update.None? <==> failure.Some?)
      && (r.update.None? ==> r.toast == Some(Message(failure.value)))
  {
    var checks := Checks(current, lastAddedToken, config);
    FirstFailureStep(checks);
    FirstFailureStep(checks[1..]);
    FirstFailureStep(checks[2..]);
    FirstFailureStep(checks[3..]);
    FirstFailureStep(checks[4..]);
    assert checks[2..] == checks[1..][1..] && checks[3..] == checks[2..][1..];
    assert checks[4..] == checks[3..][1..] && checks[4..][1..] == [];
  }

  /** One step of `FirstFailure`: the head check decides, or the rest does. */
  lemma FirstFailureStep(checks: seq<(bool, string)>)
    requires checks != []
    ensures FirstFailure(checks) == if !checks[0].0 then Some(checks[0].1) else FirstFailure(checks[1..])
  {
  }

  /** `onReceive`: any other action is ignored outright. */
  function OnReceive(action: Option<string>, current: Option<CurrentArtwork>, lastAddedToken: Option<string>,
                     config: Config, call: Result<()>): (r: ShortcutOutcome)
    ensures action != Some(ActionFavorite) ==> r == ShortcutOutcome(None, None)
    ensures action == Some(ActionFavorite) ==> r == FavoriteCurrentArtwork(current, lastAddedToken, config, call)
  {
    if action != Some(ActionFavorite) then ShortcutOutcome(None, None)
    else FavoriteCurrentArtwork(current, lastAddedToken, config, call)
  }
}
