/** The root screen: the user-document view model behind the side menu, the
    switch between the home and map tabs, and the menu's navigation buttons.
    The view model is the same in both versions of the root screen; they
    differ in how the tabs are laid out. */
module MainScreen {
  import opened Common
  import Identity

  /** The reaction of `getUserData`: the alert titles it requests, the uid it
      fetches the document for, and the user document held afterwards. */
  datatype UserDataReaction = UserDataReaction(alerts: seq<string>, fetchedFor: Option<string>, userData: Option<DBUser>)

  /** With no signed-in user: "User not found" and no fetch. Otherwise the
      user's document is fetched: an error raises its description, a missing
      document raises "User not found", and both keep the document held;
      only a delivered document replaces it, with no alert. */
  function ReactToUserData(user: Option<AuthUser>, response: DocResponse, held: Option<DBUser>): (r: UserDataReaction)
    ensures user.None? ==> r == UserDataReaction([UserNotFound], None, held)
    ensures user.Some? ==> r.fetchedFor == Some(user.value.uid)
    ensures r.alerts == [] <==> user.Some? && response.error.None? && response.document.Some?
    ensures r.alerts == [] ==> r.userData == response.document
    ensures r.alerts != [] ==> r.userData == held && |r.alerts| == 1
    ensures user.Some? && response.error.Some? ==> r.alerts == [LocalizedDescription(response.error.value)]
    ensures user.Some? && response.error.None? && response.document.None? ==> r.alerts == [UserNotFound]
  {
    match user
    case None => UserDataReaction([UserNotFound], None, held)
    case Some(u) =>
      if response.error.Some? then UserDataReaction([LocalizedDescription(response.error.value)], Some(u.uid), held)
      else if response.document.None? then UserDataReaction([UserNotFound], Some(u.uid), held)
      else UserDataReaction([], Some(u.uid), response.document)
  }

  class MainViewModel {
    var showMenu: bool
    var userData: Option<DBUser>
    var showAlert: bool
    var alertMessage: string

    constructor ()
      ensures !showMenu && userData == None && !showAlert && alertMessage == ""
    {
      showMenu := false;
      userData := None;
      showAlert := false;
      alertMessage := "";
    }

    /** `showAlertTitle`. */
    method ShowAlertTitle(title: string)
      modifies this`showAlert, this`alertMessage
      ensures showAlert && alertMessage == title
    {
      alertMessage := title;
      showAlert := true;
    }

    /** `getUserData`, with the store's answer to the document fetch; the
        uid fetched for is returned. */
    method GetUserData(user: Option<AuthUser>, response: DocResponse) returns (fetchedFor: Option<string>)
      modifies this`userData, this`showAlert, this`alertMessage
      ensures var r := ReactToUserData(user, response, old(userData));
        && fetchedFor == r.fetchedFor
        && userData == r.userData
        && showAlert == ShownAfter(old(showAlert), r.alerts)
        && alertMessage == TitleAfter(old(alertMessage), r.alerts)
    {
      if user.None? {
        ShowAlertTitle(UserNotFound);
        return None;
      }
      fetchedFor := Some(user.value.uid);
      if response.error.Some? {
        ShowAlertTitle(LocalizedDescription(response.error.value));
        return;
      }
      if response.document.None? {
        ShowAlertTitle(UserNotFound);
        return;
      }
      userData := response.document;
    }
  }

  datatype Tab = Home | Map

  /** The selection tag of each page of the tab view. */
  function TabTag(t: Tab): int {
    match t
    case Home => 0
    case Map => 1
  }

  /** The page the root screen's switch shows for a selected tab value:
      home for 0, the map for 1, nothing for any other value. */
  function ScreenFor(tabSelected: int): (page: Option<Tab>)
    ensures page.Some? <==> tabSelected == 0 || tabSelected == 1
    ensures page.Some? ==> TabTag(page.value) == tabSelected
  {
    if tabSelected == 0 then Some(Home)
    else if tabSelected == 1 then Some(Map)
    else None
  }

  /** The switch and the tags agree: selecting a page's tag shows that page. */
  lemma TagsSelectTheirPages(t: Tab)
    ensures ScreenFor(TabTag(t)) == Some(t)
  {
  }

  /** A menu navigation button is disabled while its tab is the selected
      one. */
  function NavButtonEnabled(tabSelected: int, tabNo: int): bool
  {
    !(tabSelected == tabNo)
  }

  /** The menu's navigation buttons, as (tab, title): home, then the map. */
  const NavButtons: seq<(int, string)> := [(0, "ホーム"), (1, "マップ")]

  /** The menu's buttons and the root screen's switch agree: a button is
      disabled exactly when its tab's page is the one shown, so while a page
      is shown exactly one button, its own, is disabled, and while the
      selection shows nothing every button is enabled. */
  lemma DisabledButtonIsShownPage(tabSelected: int)
    ensures forall i :: 0 <= i < |NavButtons| ==>
      (!NavButtonEnabled(tabSelected, NavButtons[i].0) <==>
         ScreenFor(tabSelected).Some? && TabTag(ScreenFor(tabSelected).value) == NavButtons[i].0)
    ensures ScreenFor(tabSelected).Some? ==>
      exists i :: 0 <= i < |NavButtons| && !NavButtonEnabled(tabSelected, NavButtons[i].0)
    ensures forall i, j :: 0 <= i < j < |NavButtons| ==>
      NavButtonEnabled(tabSelected, NavButtons[i].0) || NavButtonEnabled(tabSelected, NavButtons[j].0)
  {
    if tabSelected == 0 {
      assert !NavButtonEnabled(tabSelected, NavButtons[0].0);
    } else if tabSelected == 1 {
      assert !NavButtonEnabled(tabSelected, NavButtons[1].0);
    }
  }

  /** The root screen's own state. */
  class MainViewState {
    var userIsNotLogIn: bool
    var tabSelected: int
    var showMenu: bool

    constructor ()
      ensures userIsNotLogIn && tabSelected == 0 && !showMenu
    {
      userIsNotLogIn := true;
      tabSelected := 0;
      showMenu := false;
    }

    /** The menu button opens the side menu. */
    method MenuButtonTapped()
      modifies this`showMenu
      ensures showMenu
    {
      showMenu := true;
    }

    /** A tap on the navigation button for `tabNo`: an enabled button closes
        the menu and selects its tab; a disabled one does nothing. */
    method NavButtonTapped(tabNo: int)
      modifies this`showMenu, this`tabSelected
      ensures !NavButtonEnabled(old(tabSelected), tabNo) ==> showMenu == old(showMenu) && tabSelected == old(tabSelected)
      ensures NavButtonEnabled(old(tabSelected), tabNo) ==> !showMenu && tabSelected == tabNo
      ensures !NavButtonEnabled(tabSelected, tabNo)
    {
      if !NavButtonEnabled(tabSelected, tabNo) {
        return;
      }
      showMenu := false;
      tabSelected := tabNo;
    }

    /** On appearing, the login cover is shown exactly when no user is
        signed in. */
    method OnAppear(auth: Identity.AuthSession)
      modifies this`userIsNotLogIn
      ensures userIsNotLogIn <==> auth.currentUser.None?
    {
      userIsNotLogIn := !auth.UserIsLogin();
    }

    /** The sign-out button closes the menu, signs out (a failure is
        ignored) and shows the login cover when no user remains signed in. */
    method SignOutTapped(auth: Identity.AuthSession, failure: Option<Error>)
      modifies this`showMenu, this`userIsNotLogIn, auth`currentUser
      ensures !showMenu
      ensures failure.None? ==> auth.currentUser == None && userIsNotLogIn
      ensures failure.Some? ==> auth.currentUser == old(auth.currentUser) && (userIsNotLogIn <==> auth.currentUser.None?)
    {
      showMenu := false;
      var _ := auth.LogOut(failure);
      userIsNotLogIn := !auth.UserIsLogin();
    }
  }
}
