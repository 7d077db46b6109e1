/** The sidebar (`src/components/layout/AppSidebar.tsx`): its navigation
    entries and which of them is highlighted for the current path. The path
    is a parameter. */
module AppSidebar {
  import opened Text

  datatype NavItem = NavItem(title: string, url: string)

  const NavigationItems: seq<NavItem> := [
    NavItem("Dashboard", "/dashboard"),
    NavItem("Preview Dashboard", "/preview"),
    NavItem("AI Assistant", "/dashboard/ai-assistant"),
    NavItem("Client Management", "/dashboard/client"),
    NavItem("WhatsApp Blast", "/dashboard/whatsapp-blast"),
    NavItem("WhatsApp Warmer", "/dashboard/whatsapp-warmer"),
    NavItem("Number Check", "/dashboard/number-check"),
    NavItem("Conversations", "/dashboard/conversation"),
    NavItem("Templates", "/dashboard/data/message-templates"),
    NavItem("Buku Alamat", "/dashboard/address-book"),
    NavItem("Analytics", "/dashboard/analytics")
  ]

  const SettingsItems: seq<NavItem> := [NavItem("Settings", "/dashboard/settings")]

  /** Every entry of both groups. */
  const AllItems: seq<NavItem> := NavigationItems + SettingsItems

  /** `isActive`: the dashboard entry only on its own path, every other entry
      on any path that starts with its URL. */
  predicate IsActive(currentPath: string, path: string)
  {
    if path == "/dashboard" then currentPath == path else StartsWith(currentPath, path)
  }

  const ActiveClass: string := "bg-primary text-primary-foreground font-medium"
  const IdleClass: string := "hover:bg-sidebar-accent/50 text-sidebar-foreground"

  /** `getNavClass`. */
  function NavClass(currentPath: string, path: string): (r: string)
    ensures r == ActiveClass <==> IsActive(currentPath, path)
    ensures r == IdleClass <==> !IsActive(currentPath, path)
  {
    if IsActive(currentPath, path) then ActiveClass else IdleClass
  }

  /** A sub-page of client management highlights that entry and not the
      dashboard entry. */
  lemma ClientSubPage(rest: string)
    ensures IsActive("/dashboard/client/" + rest, "/dashboard/client")
    ensures !IsActive("/dashboard/client/" + rest, "/dashboard")
  {
    var p := "/dashboard/client/" + rest;
    assert p[..|"/dashboard/client"|] == "/dashboard/client";
    assert |p| > |"/dashboard"|;
  }

  /** Two prefixes of the same text are prefixes of one another. */
  lemma PrefixesNest(s: string, a: string, b: string)
    requires StartsWith(s, a) && StartsWith(s, b) && |a| <= |b|
    ensures StartsWith(b, a)
  {
    assert b[..|a|] == s[..|b|][..|a|];
  }

  /** The two texts differ at position `k`, which lies within both. */
  predicate DifferAt(a: string, b: string, k: int)
  {
    0 <= k < |a| && k < |b| && a[k] != b[k]
  }

  /** Texts that differ at a common position do not start one another. */
  lemma DifferenceBlocksPrefix(a: string, b: string, k: int)
    requires DifferAt(a, b, k)
    ensures !StartsWith(b, a) && !StartsWith(a, b)
  {
  }

  /** The letter that follows "/dashboard/" in each entry's URL; the first
      two entries have none. */
  const Initials: string := "--acwwncdaas"

  /** Every entry from the third on lies under "/dashboard/", with the
      letter of `Initials` after it. */
  lemma UrlShape(k: nat)
    requires 2 <= k < |AllItems|
    ensures var u := AllItems[k].url; |u| >= 17 && u[1] == 'd' && u[11] == Initials[k]
  {
  }

  /** Any two entries other than the dashboard differ at position 1, 11, 12
      or 20 of their URLs. */
  lemma UrlsDiffer(i: nat, j: nat)
    requires 1 <= i < |AllItems| && 1 <= j < |AllItems| && i != j
    ensures var a := AllItems[i].url; var b := AllItems[j].url;
      DifferAt(a, b, 1) || DifferAt(a, b, 11) || DifferAt(a, b, 12) || DifferAt(a, b, 20)
  {
    var a := AllItems[i].url;
    var b := AllItems[j].url;
    if i == 1 || j == 1 {
      UrlShape(if i == 1 then j else i);
      assert AllItems[1].url == "/preview";
    } else {
      UrlShape(i);
      UrlShape(j);
      if Initials[i] == Initials[j] {
        assert (i in {2, 9, 10} && j in {2, 9, 10}) || (i in {3, 7} && j in {3, 7}) || (i in {4, 5} && j in {4, 5});
      }
    }
  }

  /** Apart from the dashboard entry, whose URL starts every other
      "/dashboard/" URL, no entry's URL starts another's. */
  lemma UrlsDoNotNest(i: nat, j: nat)
    requires 1 <= i < |AllItems| && 1 <= j < |AllItems| && i != j
    ensures !StartsWith(AllItems[j].url, AllItems[i].url)
  {
    var a := AllItems[i].url;
    var b := AllItems[j].url;
    UrlsDiffer(i, j);
    if DifferAt(a, b, 1) {
      DifferenceBlocksPrefix(a, b, 1);
    } else if DifferAt(a, b, 11) {
      DifferenceBlocksPrefix(a, b, 11);
    } else if DifferAt(a, b, 12) {
      DifferenceBlocksPrefix(a, b, 12);
    } else {
      DifferenceBlocksPrefix(a, b, 20);
    }
  }

  /** On the dashboard's own path no other entry is highlighted. */
  lemma DashboardExclusive(j: nat)
    requires 1 <= j < |AllItems|
    ensures !IsActive("/dashboard", AllItems[j].url)
  {
    var b := AllItems[j].url;
    assert |b| > 10 || DifferAt(b, "/dashboard", 1);
    if |b| <= 10 {
      DifferenceBlocksPrefix(b, "/dashboard", 1);
    }
  }

  /** For any path, at most one entry is highlighted. */
  lemma AtMostOneActive(currentPath: string, i: nat, j: nat)
    requires i < |AllItems| && j < |AllItems|
    requires IsActive(currentPath, AllItems[i].url) && IsActive(currentPath, AllItems[j].url)
    ensures i == j
  {
    var a := AllItems[i].url;
    var b := AllItems[j].url;
    if i != j && i != 0 && j != 0 {
      if |a| <= |b| {
        UrlsDoNotNest(i, j);
        PrefixesNest(currentPath, a, b);
      } else {
        UrlsDoNotNest(j, i);
        PrefixesNest(currentPath, b, a);
      }
    } else if i != j {
      DashboardExclusive(if i == 0 then j else i);
    }
  }
}
