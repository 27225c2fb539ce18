/** The inquiries section's header: its title, whether it shows a back
    button, and where that button leads. The section has three pages: the
    list at /inquiries, an inquiry's details at /inquiries/:id and its chat
    at /inquiries/:id/chat. */
module InquiriesModule {
  import opened Wrappers
  import opened Text

  function DetailsPath(id: string): string {
    "/inquiries/" + id
  }

  function ChatPath(id: string): string {
    "/inquiries/" + id + "/chat"
  }

  /** `isMainView`: the header hides the back button on the list. */
  predicate IsMainView(path: string) {
    path == "/inquiries"
  }

  /** `'/inquiries/'.split('/')[2]`, which is `undefined` (and prints as
      such) when there are fewer than three segments. */
  function SegmentTwo(path: string): string {
    var parts := Split(path, '/');
    if |parts| > 2 then parts[2] else "undefined"
  }

  /** `handleBack` as written: a path containing "/chat/" goes to the details
      of its inquiry, any other path containing "/inquiries/" to the list;
      otherwise nothing happens. */
  function BackTargetAsWritten(path: string): (r: Option<string>)
    ensures r.None? <==> !Contains(path, "/chat/") && !Contains(path, "/inquiries/")
    ensures Contains(path, "/chat/") ==> r == Some(DetailsPath(SegmentTwo(path)))
    ensures !Contains(path, "/chat/") && Contains(path, "/inquiries/") ==> r == Some("/inquiries")
  {
    if Contains(path, "/chat/") then Some("/inquiries/" + SegmentTwo(path))
    else if Contains(path, "/inquiries/") then Some("/inquiries")
    else None
  }

  /** The header title as written: "Chat" on a path containing "/chat/",
      "Inquiry Details" below /inquiries/, otherwise "Inquiries". */
  function TitleAsWritten(path: string): (r: string)
    ensures r == "Chat" <==> Contains(path, "/chat/")
    ensures r == "Inquiry Details" <==> !Contains(path, "/chat/") && Contains(path, "/inquiries/") && !IsMainView(path)
    ensures r == "Inquiries" <==> !Contains(path, "/chat/") && (!Contains(path, "/inquiries/") || IsMainView(path))
  {
    if Contains(path, "/chat/") then "Chat"
    else if Contains(path, "/inquiries/") && !IsMainView(path) then "Inquiry Details"
    else "Inquiries"
  }

  lemma DetailsPrefix(id: string)
    ensures Contains(DetailsPath(id), "/inquiries/")
    ensures Contains(ChatPath(id), "/inquiries/")
  {
    assert OccursAt(DetailsPath(id), "/inquiries/", 0) by {
      assert DetailsPath(id)[0..11] == "/inquiries/";
    }
    assert OccursAt(ChatPath(id), "/inquiries/", 0) by {
      assert ChatPath(id)[0..11] == "/inquiries/";
    }
  }

  /** The chat route has no slash after "chat", so on the chat page of
      inquiry 42 the header reads "Inquiry Details" and back skips the
      details page and returns to the list. */
  lemma ChatPageMissedAsWritten()
    ensures TitleAsWritten(ChatPath("42")) == "Inquiry Details"
    ensures BackTargetAsWritten(ChatPath("42")) == Some("/inquiries")
  {
    var p := ChatPath("42");
    assert p == "/inquiries/42/chat";
    forall i | 0 <= i <= |p| - 6 ensures !OccursAt(p, "/chat/", i) {
      assert p[i..i + 6][0] == p[i] && p[i..i + 6][5] == p[i + 5];
    }
    DetailsPrefix("42");
  }

  /** The chat route `/inquiries/:id/chat`, recognised by its segments. */
  predicate IsChatRoute(path: string) {
    var parts := Split(path, '/');
    |parts| == 4 && parts[0] == "" && parts[1] == "inquiries" && parts[2] != "" && parts[3] == "chat"
  }

  /** `handleBack` with the chat page recognised by its route: chat goes to
      its inquiry's details, any other page below /inquiries/ to the list. */
  function BackTarget(path: string): (r: Option<string>)
    ensures IsChatRoute(path) ==> r == Some(DetailsPath(Split(path, '/')[2]))
    ensures !IsChatRoute(path) ==> (r.Some? <==> Contains(path, "/inquiries/"))
  {
    if IsChatRoute(path) then Some(DetailsPath(Split(path, '/')[2]))
    else if Contains(path, "/inquiries/") then Some("/inquiries")
    else None
  }

  /** Back always leaves the current page. */
  lemma BackLeavesPage(path: string)
    requires BackTarget(path).Some?
    ensures BackTarget(path).value != path
  {
    if IsChatRoute(path) {
      var id := Split(path, '/')[2];
      SplitPartsSeparatorFree(path, '/');
      if DetailsPath(id) == path {
        DetailsPathSplit(id);
      }
    }
  }

  /** The header title with the chat page recognised by its route. */
  function Title(path: string): (r: string)
    ensures r == "Chat" <==> IsChatRoute(path)
    ensures r == "Inquiry Details" <==> !IsChatRoute(path) && Contains(path, "/inquiries/")
  {
    if IsChatRoute(path) then "Chat"
    else if Contains(path, "/inquiries/") && !IsMainView(path) then "Inquiry Details"
    else "Inquiries"
  }

  lemma ChatPathSplit(id: string)
    requires id != "" && '/' !in id
    ensures Split(ChatPath(id), '/') == ["", "inquiries", id, "chat"]
  {
    var parts := ["", "inquiries", id, "chat"];
    assert Join(parts, "/") == ChatPath(id) by {
      assert Join(parts[3..], "/") == "chat";
      assert Join(parts[2..], "/") == id + "/" + "chat";
      assert Join(parts[1..], "/") == "inquiries" + "/" + (id + "/" + "chat");
      assert Join(parts, "/") == "" + "/" + ("inquiries" + "/" + (id + "/" + "chat"));
    }
    assert '/' !in "inquiries" && '/' !in "chat";
    SplitJoin(parts, '/');
  }

  lemma DetailsPathSplit(id: string)
    requires id != "" && '/' !in id
    ensures Split(DetailsPath(id), '/') == ["", "inquiries", id]
  {
    var parts := ["", "inquiries", id];
    assert Join(parts, "/") == DetailsPath(id) by {
      assert Join(parts[2..], "/") == id;
      assert Join(parts[1..], "/") == "inquiries" + "/" + id;
      assert Join(parts, "/") == "" + "/" + ("inquiries" + "/" + id);
    }
    assert '/' !in "inquiries";
    SplitJoin(parts, '/');
  }

  /** From a chat page, back goes to that inquiry's details, and from there
      back to the list; each page's title names it. */
  lemma {:induction false} BackRetracesNavigation(id: string)
    requires id != "" && '/' !in id
    ensures IsChatRoute(ChatPath(id)) && Title(ChatPath(id)) == "Chat"
    ensures BackTarget(ChatPath(id)) == Some(DetailsPath(id))
    ensures Title(DetailsPath(id)) == "Inquiry Details"
    ensures BackTarget(DetailsPath(id)) == Some("/inquiries")
    ensures Title("/inquiries") == "Inquiries" && BackTarget("/inquiries").None?
  {
    ChatPathSplit(id);
    DetailsPathSplit(id);
    DetailsPrefix(id);
    ListPage();
  }

  /** The list page is not a chat route and lies above /inquiries/. */
  lemma ListPage()
    ensures !Contains("/inquiries", "/inquiries/")
    ensures Split("/inquiries", '/') == ["", "inquiries"]
  {
    assert |"/inquiries"| < |"/inquiries/"|;
    ListPageSplit();
  }

  lemma ListPageSplit()
    ensures Split("/inquiries", '/') == ["", "inquiries"]
  {
    ListPageJoin();
    assert '/' !in "inquiries";
    SplitJoin(["", "inquiries"], '/');
  }

  lemma ListPageJoin()
    ensures Join(["", "inquiries"], "/") == "/inquiries"
  {
    assert Join(["inquiries"], "/") == "inquiries";
  }

  /** A chat route spells "/inquiries/", its id, "/chat". */
  lemma ChatRouteShape(path: string)
    requires IsChatRoute(path)
    ensures path == "/inquiries/" + Split(path, '/')[2] + "/chat"
    ensures Contains(path, "/inquiries/") && !IsMainView(path)
  {
    var parts := Split(path, '/');
    JoinSplit(path, '/');
    assert parts == ["", "inquiries", parts[2], "chat"];
    assert Join(parts[3..], "/") == "chat";
    assert Join(parts[2..], "/") == parts[2] + "/" + "chat";
    assert Join(parts[1..], "/") == "inquiries" + "/" + (parts[2] + "/" + "chat");
    assert path == "" + "/" + ("inquiries" + "/" + (parts[2] + "/" + "chat"));
    assert OccursAt(path, "/inquiries/", 0) by {
      assert path[0..11] == "/inquiries/";
    }
  }

  /** Off the chat routes, and wherever "/chat/" does not occur, the header
      as written and the intended header agree on title and back target. */
  lemma AsWrittenAgreesOffChat(path: string)
    requires !IsChatRoute(path) && !Contains(path, "/chat/")
    ensures TitleAsWritten(path) == Title(path)
    ensures BackTargetAsWritten(path) == BackTarget(path)
  {
  }

  /** On every chat route without "/chat/" in it (every chat route whose id
      is not "chat"), the header as written reads "Inquiry Details" and back
      skips to the list, where the intended header reads "Chat" and back
      goes to the inquiry's details. */
  lemma AsWrittenMissesChatRoutes(path: string)
    requires IsChatRoute(path) && !Contains(path, "/chat/")
    ensures TitleAsWritten(path) == "Inquiry Details" && Title(path) == "Chat"
    ensures BackTargetAsWritten(path) == Some("/inquiries")
    ensures BackTarget(path) == Some(DetailsPath(Split(path, '/')[2])) != Some("/inquiries")
  {
    ChatRouteShape(path);
    assert |DetailsPath(Split(path, '/')[2])| > |"/inquiries"|;
  }

  /** The back button shows everywhere but on the list, and below
      /inquiries/ it always leads somewhere. */
  lemma BackButtonLeadsSomewhere(path: string)
    requires !IsMainView(path) && Contains(path, "/inquiries/")
    ensures BackTarget(path).Some? && BackTargetAsWritten(path).Some?
  {
  }
}
