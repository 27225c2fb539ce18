/** The profile section's header: its title, whether it shows a back button
    and where that button leads. The section's pages are the overview at
    /profile and the five pages its menu opens. */
module ProfileModule {
  import opened Wrappers
  import opened Text
  import ProfileMain

  /** `isMainView`: the overview hides the back button. */
  predicate IsMainView(path: string) {
    path == "/profile"
  }

  /** `getPageTitle()`: the first of "/edit", "/certifications", "/media" and
      "/settings" the path contains names the page; otherwise "Profile". */
  function Title(path: string): (r: string)
    ensures Contains(path, "/edit") ==> r == "Edit Profile"
    ensures !Contains(path, "/edit") && Contains(path, "/certifications") ==> r == "Certifications"
    ensures (!Contains(path, "/edit") && !Contains(path, "/certifications")
             && Contains(path, "/media")) ==> r == "Media Management"
    ensures (!Contains(path, "/edit") && !Contains(path, "/certifications")
             && !Contains(path, "/media") && Contains(path, "/settings")) ==> r == "Settings"
    ensures r == "Profile" <==>
      !Contains(path, "/edit") && !Contains(path, "/certifications")
      && !Contains(path, "/media") && !Contains(path, "/settings")
  {
    if Contains(path, "/edit") then "Edit Profile"
    else if Contains(path, "/certifications") then "Certifications"
    else if Contains(path, "/media") then "Media Management"
    else if Contains(path, "/settings") then "Settings"
    else "Profile"
  }

  /** `handleBack()`: any page below /profile/ goes back to the overview;
      elsewhere the button does nothing (`None`). */
  function BackTarget(path: string): (r: Option<string>)
    ensures r.Some? <==> Contains(path, "/profile/")
    ensures r.Some? ==> r.value == "/profile"
  {
    if Contains(path, "/profile/") then Some("/profile") else None
  }

  /** Whether the header shows the back button. */
  predicate ShowsBack(path: string) {
    !IsMainView(path)
  }

  /** The four leading characters of an occurrence. */
  lemma OccurrenceStart(p: string, pat: string, i: int)
    requires |pat| >= 4 && OccursAt(p, pat, i)
    ensures p[i] == pat[0] && p[i + 1] == pat[1] && p[i + 2] == pat[2] && p[i + 3] == pat[3]
  {
    assert p[i..i + |pat|][0] == p[i] && p[i..i + |pat|][1] == p[i + 1];
    assert p[i..i + |pat|][2] == p[i + 2] && p[i..i + |pat|][3] == p[i + 3];
  }

  /** `p` does not contain `pat` when no window of `p` starts like it. */
  lemma Absent(p: string, pat: string)
    requires |pat| >= 4
    requires forall i | 0 <= i && i + 4 <= |p| ::
      !(p[i] == pat[0] && p[i + 1] == pat[1] && p[i + 2] == pat[2] && p[i + 3] == pat[3])
    ensures !Contains(p, pat)
  {
    forall i | 0 <= i <= |p| - |pat| ensures !OccursAt(p, pat, i) {
      if OccursAt(p, pat, i) {
        OccurrenceStart(p, pat, i);
      }
    }
  }

  lemma Present(p: string, pat: string, i: int)
    requires 0 <= i && i + |pat| <= |p| && p[i..i + |pat|] == pat
    ensures Contains(p, pat)
  {
    assert OccursAt(p, pat, i);
  }

  /** Each menu page is titled with its menu label, except "Manage
      Services": there is no "/services" case, so its page is titled
      "Profile" like the overview. */
  lemma MenuTitles()
    ensures forall k | 0 <= k < |ProfileMain.MenuItems| && k != 1 ::
      Title(ProfileMain.MenuItems[k].path) == ProfileMain.MenuItems[k].caption
    ensures Title(ProfileMain.MenuItems[1].path) == "Profile"
    ensures Title("/profile") == "Profile"
  {
    EditTitle();
    ServicesTitle();
    CertificationsTitle();
    MediaTitle();
    SettingsTitle();
    OverviewTitle();
  }

  lemma EditTitle()
    ensures Title("/profile/edit") == "Edit Profile"
  {
    var p := "/profile/edit";
    Present(p, "/edit", 8);
  }

  lemma ServicesTitle()
    ensures Title("/profile/services") == "Profile"
  {
    var p := "/profile/services";
    Absent(p, "/edit");
    Absent(p, "/certifications");
    Absent(p, "/media");
    Absent(p, "/settings");
  }

  lemma CertificationsTitle()
    ensures Title("/profile/certifications") == "Certifications"
  {
    var p := "/profile/certifications";
    Absent(p, "/edit");
    Present(p, "/certifications", 8);
  }

  lemma MediaTitle()
    ensures Title("/profile/media") == "Media Management"
  {
    var p := "/profile/media";
    Absent(p, "/edit");
    Absent(p, "/certifications");
    Present(p, "/media", 8);
  }

  lemma SettingsTitle()
    ensures Title("/profile/settings") == "Settings"
  {
    var p := "/profile/settings";
    Absent(p, "/edit");
    Absent(p, "/certifications");
    Absent(p, "/media");
    Present(p, "/settings", 8);
  }

  lemma OverviewTitle()
    ensures Title("/profile") == "Profile"
  {
    var p := "/profile";
    Absent(p, "/edit");
    Absent(p, "/certifications");
    Absent(p, "/media");
    Absent(p, "/settings");
  }

  /** On every menu page the back button shows and returns to the overview,
      where it is hidden. */
  lemma BackFromMenuPages()
    ensures forall k | 0 <= k < |ProfileMain.MenuItems| ::
      ShowsBack(ProfileMain.MenuItems[k].path)
      && BackTarget(ProfileMain.MenuItems[k].path) == Some("/profile")
    ensures !ShowsBack("/profile") && BackTarget("/profile").None?
  {
    forall k | 0 <= k < |ProfileMain.MenuItems|
      ensures Contains(ProfileMain.MenuItems[k].path, "/profile/")
    {
      var p := ProfileMain.MenuItems[k].path;
      assert p[..9] == "/profile/";
      Present(p, "/profile/", 0);
    }
    var p := "/profile";
    assert |p| < |"/profile/"|;
  }
}
