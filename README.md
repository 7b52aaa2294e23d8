# BloomWatch prototype, modelled in Dafny

BloomWatch's front-end prototype is a single-page application for monitoring plant
blooms from satellite imagery. A user signs in, explores a map whose free-text layer
labels decide what the map draws, hands a map region or an uploaded image to an
"AI analysis" screen, browses a fixed risk forecast and edits preferences. Nothing
talks to a server: every request is a timer and every result is a fixed record.

This project models that prototype's state and rendering logic and proves what it
promises:

- `text.dfy` (`Text`): JavaScript's `String.prototype.includes` as a substring test,
  related to an index-based definition.
- `types.dfy` (`Types`): the view enumeration and the analysis context record
  handed from the map or the upload screen to the analysis screen.
- `simulated_map.dfy` (`SimulatedMap`): the map component. Layer labels are matched
  against keywords to choose the tile source, the bloom overlay, the grid and the
  footer. The Leaflet map is abstracted as the state the component changes on it:
  tile layers, overlay circles, interaction handlers and zoom. The effects are
  methods of a class.
- `map_explorer.dfy` (`MapExplorer`): the layer checklist, the cloud-cover slider and
  the region context built by "Analizar región".
- `login.dfy` (`Login`): the sign-in form, its empty-field check and its simulated
  credential check.
- `app.dfy` (`App`): the application shell. It covers authentication, the current
  view, the analysis context, the single toast slot and which screen is rendered.
  It is given both as pure transition functions and as a class whose methods follow them.
- `upload.dfy` (`Upload`): the drop zone, file selection, simulated processing and
  the result context.
- `predictions.dfy` (`Predictions`): the fixed forecast table, its heatmap colouring
  and opacity, and the chart/heatmap switch.
- `settings.dfy` (`Settings`): language, notification switches, developer mode and
  the save button.
- `ai_analysis.dfy` (`AIAnalysis`): the fallback context, the accuracy-driven
  conclusion, the comparison slider and the report download.

Timers (login 1 s, upload processing 2.5 s, settings save 0.8 s, report download
1.5 s) are modelled as two steps. One method starts the operation. A separate
completion method stands for the timer firing, and it requires the operation to be
in flight. The clock (`Date.now()`) and the locale date (`toLocaleDateString()`) are
string parameters.

A handler that the UI can only reach while some element is rendered gets a
`requires` for that condition. For example, the sidebar exists only for a signed-in
user, and the drop zone exists only until an upload completes.

## Model

| member | source | states |
|---|---|---|
| Text.MatchesFromSpec | frontend/prototipo/components/SimulatedMap.tsx:52 | The character-by-character comparison succeeds exactly when the rest of the needle equals the slice of the text at that offset |
| Text.IncludesFromSpec | frontend/prototipo/components/SimulatedMap.tsx:52 | Scanning from position i finds the needle iff it occurs at some position at or after i |
| Text.IncludesSpec | frontend/prototipo/components/SimulatedMap.tsx:52 | `includes` holds iff the needle occurs as a contiguous slice at some index |
| Text.IncludesChar | frontend/prototipo/screens/Login.tsx:27 | Including a one-character string is membership of that character |
| Text.IncludesEmpty | frontend/prototipo/components/SimulatedMap.tsx:52 | Every string includes the empty string |
| Text.OccursIncludes | frontend/prototipo/components/SimulatedMap.tsx:52 | A witness occurrence at a given index makes `includes` true |
| Text.AbsentChar | frontend/prototipo/components/SimulatedMap.tsx:52 | A string missing one of the needle's characters cannot include the needle |
| Text.MatchesFrom | frontend/prototipo/components/SimulatedMap.tsx:52 | Compares the needle with the text from an offset, character by character; characterised by MatchesFromSpec |
| Text.IncludesFrom | frontend/prototipo/components/SimulatedMap.tsx:52 | Tries every start position from i onwards; characterised by IncludesFromSpec |
| Text.Includes | frontend/prototipo/components/SimulatedMap.tsx:52 | `String.prototype.includes`; characterised by IncludesSpec |
| SimulatedMap.AnyLabelIncludesMembers | frontend/prototipo/components/SimulatedMap.tsx:52 | `layers.some(l => l.includes(k1) \|\| ...)` holds iff some label in the list includes some keyword in the list |
| SimulatedMap.LabelMatchSpec | frontend/prototipo/components/SimulatedMap.tsx:78 | A label list matches a keyword list iff some keyword occurs as a substring at some index of some label |
| SimulatedMap.SameLabelsSameRendering | frontend/prototipo/components/SimulatedMap.tsx:52-177 | Two label lists with the same members give the same tiles, overlay, grid and footer, whatever their order or repetition |
| SimulatedMap.ViewKeywordsNest | frontend/prototipo/components/SimulatedMap.tsx:139-177 | The footer's satellite mode implies satellite tiles, and a pulsing activity icon implies the satellite mode |
| SimulatedMap.GridAndFooterAgree | frontend/prototipo/components/SimulatedMap.tsx:139-177 | The grid is shown iff the footer says DATA MODE, hidden iff it says SATELLITE VIEW; no grid implies satellite tiles; a pulsing icon implies no grid |
| SimulatedMap.AnyLabelIncludes | frontend/prototipo/components/SimulatedMap.tsx:52 | `layers.some(l => l.includes(k1) \|\| ...)`; characterised by AnyLabelIncludesMembers and LabelMatchSpec |
| SimulatedMap.ShowSatellite | frontend/prototipo/components/SimulatedMap.tsx:52 | The tile test over "Sentinel", "Landsat" and "RGB"; stated by SelectTilesSpec |
| SimulatedMap.ShowMask | frontend/prototipo/components/SimulatedMap.tsx:78 | The overlay test over "Mask", "IA" and "Heatmap"; stated by OverlaySpec |
| SimulatedMap.SatelliteView | frontend/prototipo/components/SimulatedMap.tsx:139-177 | The grid and footer test over "Sentinel" and "Landsat"; stated by ViewKeywordsNest and GridAndFooterAgree |
| SimulatedMap.ShowGrid | frontend/prototipo/components/SimulatedMap.tsx:139 | The grid is shown when no label names Sentinel or Landsat; stated by GridAndFooterAgree |
| SimulatedMap.PulsingActivity | frontend/prototipo/components/SimulatedMap.tsx:176 | The activity icon pulses when a label names Sentinel; stated by ViewKeywordsNest and GridAndFooterAgree |
| SimulatedMap.FooterText | frontend/prototipo/components/SimulatedMap.tsx:177 | The footer caption; stated by GridAndFooterAgree |
| SimulatedMap.SelectTilesSpec | frontend/prototipo/components/SimulatedMap.tsx:52-63 | Satellite tiles with the Esri attribution iff some label contains "Sentinel", "Landsat" or "RGB"; the dark basemap otherwise, including for no labels |
| SimulatedMap.SelectTiles | frontend/prototipo/components/SimulatedMap.tsx:52-63 | The tile source the labels select; characterised by SelectTilesSpec |
| SimulatedMap.SiteCirclesSnoc | frontend/prototipo/components/SimulatedMap.tsx:93-111 | Processing one more site appends exactly its core circle and then its glow circle |
| SimulatedMap.SiteCirclesAt | frontend/prototipo/components/SimulatedMap.tsx:93-111 | Site i yields a core circle at position 2i and a glow circle at 2i+1 at its own coordinates, two circles per site |
| SimulatedMap.SiteCirclesShape | frontend/prototipo/components/SimulatedMap.tsx:94-110 | Every circle is either an opaque radius-4 core or a radius-25 glow whose opacity is 0.15 times an intensity within the sites' bounds |
| SimulatedMap.CatalogCircles | frontend/prototipo/components/SimulatedMap.tsx:83-111 | Catalog intensities lie in [0.4, 0.9], so glow opacities lie in [0.06, 0.135] |
| SimulatedMap.CoreCircle | frontend/prototipo/components/SimulatedMap.tsx:95-102 | A site's small opaque dot; its shape is stated by SiteCirclesShape |
| SimulatedMap.GlowCircle | frontend/prototipo/components/SimulatedMap.tsx:105-110 | A site's translucent halo; its shape is stated by SiteCirclesShape |
| SimulatedMap.SiteCircles | frontend/prototipo/components/SimulatedMap.tsx:93-111 | The circles the `forEach` adds; characterised by SiteCirclesSnoc, SiteCirclesAt and SiteCirclesShape |
| SimulatedMap.Overlay | frontend/prototipo/components/SimulatedMap.tsx:78-111 | The overlay group's contents after a layer update; characterised by OverlaySpec |
| SimulatedMap.OverlaySpec | frontend/prototipo/components/SimulatedMap.tsx:78-111 | The overlay holds all 14 circles, in catalog order, iff "Mask", "IA" or "Heatmap" occurs in a label, and nothing otherwise |
| SimulatedMap.SatelliteWithMask | frontend/prototipo/components/SimulatedMap.tsx:52-177 | A satellite-view label plus a mask label: satellite tiles, 14 circles, no grid, SATELLITE VIEW footer |
| SimulatedMap.SatelliteWithoutMask | frontend/prototipo/components/SimulatedMap.tsx:52-177 | A satellite-view label without a mask label: satellite tiles, empty overlay, no grid, SATELLITE VIEW footer |
| SimulatedMap.MaskWithoutSatellite | frontend/prototipo/components/SimulatedMap.tsx:52-177 | A mask label without a satellite label: dark tiles, 14 circles, grid shown, DATA MODE footer |
| SimulatedMap.NeitherSatelliteNorMask | frontend/prototipo/components/SimulatedMap.tsx:52-177 | Neither kind of label: dark tiles, empty overlay, grid shown, DATA MODE footer |
| SimulatedMap.NoLabelIncludes | frontend/prototipo/components/SimulatedMap.tsx:52 | No label matches when each keyword has a character that no label contains |
| SimulatedMap.LabelIncludesAt | frontend/prototipo/components/SimulatedMap.tsx:52 | One label holding one keyword at a known position makes the list match |
| SimulatedMap.NoMaskLetters | frontend/prototipo/components/SimulatedMap.tsx:78 | Labels without 'M', 'I' and 'H' turn no overlay on |
| SimulatedMap.SentinelIsSatelliteView | frontend/prototipo/components/SimulatedMap.tsx:177 | "Sentinel-2 RGB" gives the satellite view |
| SimulatedMap.RadarHasNoSatellite | frontend/prototipo/components/SimulatedMap.tsx:52 | "SAR (Radar)" selects no satellite tiles |
| SimulatedMap.RgbIsSatellite | frontend/prototipo/components/SimulatedMap.tsx:52 | "RGB" selects satellite tiles |
| SimulatedMap.RgbIsNoSatelliteView | frontend/prototipo/components/SimulatedMap.tsx:139 | "RGB" does not give the satellite view, so the grid stays |
| SimulatedMap.DashboardIsSatelliteView | frontend/prototipo/screens/Dashboard.tsx:45 | The dashboard's labels give the satellite view |
| SimulatedMap.DashboardHasMask | frontend/prototipo/screens/Dashboard.tsx:45 | The dashboard's "NDVI Heatmap" label turns the overlay on |
| SimulatedMap.DashboardLayers | frontend/prototipo/screens/Dashboard.tsx:45 | The dashboard's fixed labels show satellite tiles, all 14 circles, no grid and the SATELLITE VIEW footer |
| SimulatedMap.RadarOnly | frontend/prototipo/components/SimulatedMap.tsx:52-177 | "SAR (Radar)" alone gives dark tiles, no overlay, the grid and the DATA MODE footer |
| SimulatedMap.RgbOnly | frontend/prototipo/components/SimulatedMap.tsx:52-177 | "RGB" alone selects satellite tiles yet keeps the grid and the DATA MODE footer, because the grid and footer tests omit "RGB" |
| SimulatedMap.NoLayers | frontend/prototipo/components/SimulatedMap.tsx:11-177 | The default empty list gives dark tiles, no overlay, the grid and DATA MODE |
| SimulatedMap.RemoveLayer | frontend/prototipo/components/SimulatedMap.tsx:66-67 | Leaflet's `removeLayer` on the tile layers, used by UpdateLayers to keep exactly one |
| SimulatedMap.MapComponent.constructor | frontend/prototipo/components/SimulatedMap.tsx:11-16 | Before the first effect there is no map, no tile layer and no overlay |
| SimulatedMap.MapComponent.Init | frontend/prototipo/components/SimulatedMap.tsx:18-42 | The map is created once, only when the container is mounted and Leaflet is loaded; it centres on (20, 0) at zoom 3 with minimum zoom 2 and world-copy jump; otherwise nothing changes |
| SimulatedMap.MapComponent.UpdateLayers | frontend/prototipo/components/SimulatedMap.tsx:45-114 | With a map, the previous tile layer is replaced by the one the labels select, so exactly one stays, and the overlay is rebuilt to the labels' overlay; without a map nothing changes |
| SimulatedMap.MapComponent.SetInteractive | frontend/prototipo/components/SimulatedMap.tsx:117-129 | With a map, dragging, scroll-wheel zoom and double-click zoom all follow `interactive`; without one nothing changes |
| SimulatedMap.MapComponent.ZoomIn | frontend/prototipo/components/SimulatedMap.tsx:131 | The zoom goes up by one unless there is no map or it is already at the maximum 19 |
| SimulatedMap.MapComponent.ZoomOut | frontend/prototipo/components/SimulatedMap.tsx:132 | The zoom goes down by one unless there is no map or it is already at the minimum 2 |
| SimulatedMap.RenderSequence | frontend/prototipo/components/SimulatedMap.tsx:18-129 | After mounting and any sequence of label updates, the map shows exactly the tile layer and overlay the last labels select, and the handlers follow `interactive` |
| MapExplorer.WithoutCounts | frontend/prototipo/screens/MapExplorer.tsx:18 | Filtering a label out leaves every other label's count and removes every copy of that label |
| MapExplorer.WithoutSpec | frontend/prototipo/screens/MapExplorer.tsx:18 | After filtering, the label is absent and exactly the other labels remain |
| MapExplorer.WithoutAppend | frontend/prototipo/screens/MapExplorer.tsx:18 | Filtering distributes over concatenation |
| MapExplorer.WithoutAbsent | frontend/prototipo/screens/MapExplorer.tsx:18 | Filtering out an absent label leaves the list unchanged |
| MapExplorer.Without | frontend/prototipo/screens/MapExplorer.tsx:18 | `prev.filter(l => l !== layer)`; characterised by WithoutCounts and WithoutSpec |
| MapExplorer.Toggle | frontend/prototipo/screens/MapExplorer.tsx:16-20 | `toggleLayer`'s update; characterised by ToggleMembership, ToggleAppends, ToggleKeepsDistinct and the two round trips |
| MapExplorer.ToggleMembership | frontend/prototipo/screens/MapExplorer.tsx:16-20 | Toggling flips that label's membership and no other label's |
| MapExplorer.ToggleAppends | frontend/prototipo/screens/MapExplorer.tsx:18 | Checking an unchecked label appends it after the existing labels, in their order |
| MapExplorer.ToggleKeepsDistinct | frontend/prototipo/screens/MapExplorer.tsx:16-20 | Toggling a duplicate-free list keeps it duplicate-free |
| MapExplorer.ToggleTwiceUnchecked | frontend/prototipo/screens/MapExplorer.tsx:16-20 | Checking then unchecking a label restores the list exactly |
| MapExplorer.ToggleTwiceChecked | frontend/prototipo/screens/MapExplorer.tsx:16-20 | Unchecking then re-checking restores the same labels with that label moved to the end |
| MapExplorer.MapExplorerScreen.constructor | frontend/prototipo/screens/MapExplorer.tsx:12-13 | Starts with "Sentinel-2 RGB" checked and cloud cover 12 |
| MapExplorer.MapExplorerScreen.Checked | frontend/prototipo/screens/MapExplorer.tsx:64 | A checkbox is ticked when its label is active |
| MapExplorer.MapExplorerScreen.ToggleLayer | frontend/prototipo/screens/MapExplorer.tsx:60-65 | A checkbox flips its own label and no other, keeping the list duplicate-free and within the four offered labels |
| MapExplorer.MapExplorerScreen.SetCloudCover | frontend/prototipo/screens/MapExplorer.tsx:87-91 | The slider sets the cloud cover to its value in [0, 100] |
| MapExplorer.RegionContext | frontend/prototipo/screens/MapExplorer.tsx:22-36 | The region context is a map-sourced record with id "map-" plus the clock reading, the given date, High confidence and accuracy at most 90 |
| MapExplorer.InitialSelection | frontend/prototipo/screens/MapExplorer.tsx:12 | The initial selection shows satellite tiles, no overlay, no grid and the SATELLITE VIEW footer |
| MapExplorer.MaskLabelIsMask | frontend/prototipo/screens/MapExplorer.tsx:60 | The "U-Net Mask (AI)" option turns on the bloom overlay |
| MapExplorer.MaskLabelHasNoSatellite | frontend/prototipo/screens/MapExplorer.tsx:60 | The "U-Net Mask (AI)" option does not select satellite tiles |
| MapExplorer.MaskOptionAlone | frontend/prototipo/screens/MapExplorer.tsx:60 | The mask option alone draws the 14 circles over the dark basemap, with the grid and the DATA MODE footer |
| Login.CredentialsAcceptedSpec | frontend/prototipo/screens/Login.tsx:27 | The simulated server accepts iff the e-mail contains '@' and the password has at least five characters |
| Login.CredentialsAccepted | frontend/prototipo/screens/Login.tsx:27 | The simulated server's test; characterised by CredentialsAcceptedSpec |
| Login.SubmitCallbacks | frontend/prototipo/screens/Login.tsx:15-34 | The callbacks one run of `handleSubmit` eventually produces; characterised by SubmitCallbacksSpec and realised by FillAndSubmit |
| Login.SubmitCallbacksSpec | frontend/prototipo/screens/Login.tsx:15-34 | Once `handleSubmit` runs, it yields exactly one callback: a login iff the credentials are accepted; the missing-fields error iff a field is empty; the invalid-credentials error otherwise |
| Login.LoginForm.constructor | frontend/prototipo/screens/Login.tsx:11-13 | Both fields start empty and the form is not loading |
| Login.LoginForm.ButtonLabel | frontend/prototipo/screens/Login.tsx:90 | The button reads "Autenticando..." while loading and "Iniciar sesión" otherwise |
| Login.LoginForm.ForgotPassword | frontend/prototipo/screens/Login.tsx:95 | The link reports the administrator message as an error, never a login, and changes nothing in the form, even while a request is pending |
| Login.LoginForm.SetEmail | frontend/prototipo/screens/Login.tsx:66 | Typing sets the e-mail field |
| Login.LoginForm.SetPassword | frontend/prototipo/screens/Login.tsx:78 | Typing sets the password field |
| Login.LoginForm.Submit | frontend/prototipo/screens/Login.tsx:15-26 | While loading nothing happens; an empty field reports the missing-fields error at once and changes nothing; otherwise loading starts with the current credentials captured |
| Login.LoginForm.Complete | frontend/prototipo/screens/Login.tsx:26-33 | The completion judges the captured credentials; on success it calls `onLogin` and stays loading, on failure it reports the invalid-credentials error and stops loading |
| Login.FillAndSubmit | frontend/prototipo/screens/Login.tsx:15-34 | Filling the form, running `handleSubmit` and completing the request produces exactly the callbacks the submitted credentials call for, even when the fields are edited meanwhile |
| App.RenderContentSpec | frontend/prototipo/App.tsx:80-91 | Each view renders its own screen, and only the analysis screen receives the analysis context |
| App.RenderContentInjective | frontend/prototipo/App.tsx:80-91 | Different views render different screens |
| App.TransitionsKeepConsistent | frontend/prototipo/App.tsx:33-69 | Every handler keeps the shell consistent: when signed out, the view is the dashboard and there is no analysis context |
| App.LoginLandsOnDashboard | frontend/prototipo/App.tsx:44-47 | Signing in from a signed-out shell shows the dashboard with the success toast |
| App.SignedOutShowsLogin | frontend/prototipo/App.tsx:71-78 | Signed out, the login page is shown whatever the current view |
| App.LogoutResets | frontend/prototipo/App.tsx:49-53 | Logging out returns to the initial shell except for the toast, and is idempotent |
| App.LoginLogoutRoundTrip | frontend/prototipo/App.tsx:44-53 | Signing in and straight out again restores the initial shell apart from the login toast |
| App.AnalyzeAndUploadAgree | frontend/prototipo/App.tsx:55-65 | A map analysis and an upload lead to the same shell except the toast, which is "info" for the map and "success" for the upload |
| App.ToastSingleSlot | frontend/prototipo/App.tsx:38-42 | A second toast replaces the first, closing empties the slot, and showing a toast changes nothing else |
| App.ShowToast | frontend/prototipo/App.tsx:40-42 | Fills the single toast slot; its behaviour is stated by ToastSingleSlot |
| App.AfterLogin | frontend/prototipo/App.tsx:44-47 | `handleLogin`: signed in with the success toast; stated by LoginLandsOnDashboard and LoginLogoutRoundTrip |
| App.AfterLoginError | frontend/prototipo/App.tsx:74 | The login page's `onError`: an error toast and nothing else; stated by TransitionsKeepConsistent and ForgotPasswordSession |
| App.AfterLogout | frontend/prototipo/App.tsx:49-53 | `handleLogout`; stated by LogoutResets |
| App.AfterAnalyzeRegion | frontend/prototipo/App.tsx:55-59 | `handleAnalyzeRegion`; stated by AnalyzeAndUploadAgree and AnalyzeSession |
| App.AfterUploadAnalysis | frontend/prototipo/App.tsx:61-65 | `handleUploadAnalysis`; stated by AnalyzeAndUploadAgree |
| App.AfterSettingsSave | frontend/prototipo/App.tsx:67-69 | `handleSettingsSave`: the preferences toast; consistency by TransitionsKeepConsistent |
| App.AfterChangeView | frontend/prototipo/App.tsx:97 | `setCurrentView`; consistency by TransitionsKeepConsistent |
| App.AfterCloseToast | frontend/prototipo/App.tsx:76 | The toast's `onClose`; stated by ToastSingleSlot |
| App.RenderContent | frontend/prototipo/App.tsx:80-91 | `renderContent`; characterised by RenderContentSpec and RenderContentInjective |
| App.ScreenView | frontend/prototipo/App.tsx:80-91 | The view each screen is rendered for, the inverse used by RenderContentSpec |
| App.Render | frontend/prototipo/App.tsx:71-133 | The login page when signed out, the shell with the content screen otherwise, each with the toast; stated by SignedOutShowsLogin and LoginLandsOnDashboard |
| App.AppShell.State | frontend/prototipo/App.tsx:33-38 | The shell's four state variables as one record, which every handler method is stated against |
| App.AppShell.Shown | frontend/prototipo/App.tsx:71-133 | What the page shows for the current state |
| App.AppShell.constructor | frontend/prototipo/App.tsx:33-38 | The shell starts signed out, on the dashboard, with no context and no toast |
| App.AppShell.Login | frontend/prototipo/App.tsx:44-47 | The shell moves as the sign-in transition says and stays consistent |
| App.AppShell.LoginError | frontend/prototipo/App.tsx:74 | The login form's error becomes an error toast |
| App.AppShell.Logout | frontend/prototipo/App.tsx:49-53 | The shell moves as the sign-out transition says and stays consistent |
| App.AppShell.AnalyzeRegion | frontend/prototipo/App.tsx:55-59 | The context is stored, the analysis view opens and an info toast appears |
| App.AppShell.UploadAnalysis | frontend/prototipo/App.tsx:61-65 | The context is stored, the analysis view opens and a success toast appears |
| App.AppShell.SettingsSave | frontend/prototipo/App.tsx:67-69 | The preferences-saved toast appears, in any state |
| App.AppShell.ChangeView | frontend/prototipo/App.tsx:97 | The sidebar sets the current view |
| App.AppShell.OpenAlerts | frontend/prototipo/App.tsx:113 | The bell opens the alerts screen |
| App.AppShell.OpenSettings | frontend/prototipo/App.tsx:117 | The profile block opens the settings screen |
| App.AppShell.CloseToast | frontend/prototipo/App.tsx:76 | Closing the toast empties the slot and changes nothing else |
| App.AppShell.Dispatch | frontend/prototipo/App.tsx:74 | The login page's `onLogin` signs in and its `onError` shows the message as an error toast |
| App.AnalyzeSession | frontend/prototipo/App.tsx:44-91 | Sign in, analyse a region, sign out: the analysis screen receives the context, and signing out returns to the login page and forgets it |
| App.SignInSession | frontend/prototipo/App.tsx:44-47 | Signing in through the login form with the request left to complete shows the dashboard exactly when the e-mail contains '@' and the password has at least five characters, and otherwise keeps the login page with an error toast |
| App.ForgotPasswordSession | frontend/prototipo/App.tsx:74 | The forgot-password link leaves the login page up with the administrator message as an error toast and nobody signed in |
| Upload.ResultContext | frontend/prototipo/screens/Upload.tsx:34-49 | The result is an upload-sourced record named after the selected file, or "Imagen Procesada" without one, with id "upload-" plus the clock reading, the given date, High confidence and accuracy above 90 |
| Upload.UploadScreen.constructor | frontend/prototipo/screens/Upload.tsx:11-14 | No file, not dragging, not processing, not complete |
| Upload.UploadScreen.Shown | frontend/prototipo/screens/Upload.tsx:56-143 | The completed panel, the file card or the drop zone, in that priority |
| Upload.UploadScreen.DragOver | frontend/prototipo/screens/Upload.tsx:64 | Dragging over highlights the drop zone |
| Upload.UploadScreen.DragLeave | frontend/prototipo/screens/Upload.tsx:65 | Leaving removes the highlight |
| Upload.UploadScreen.Drop | frontend/prototipo/screens/Upload.tsx:16-22 | The highlight goes off; the first dropped file replaces the selection, and a drop without files keeps it |
| Upload.UploadScreen.Browse | frontend/prototipo/screens/Upload.tsx:77 | The picker selects its first file, or no file when the selection is empty |
| Upload.UploadScreen.RemoveFile | frontend/prototipo/screens/Upload.tsx:87 | "Eliminar" clears the selection |
| Upload.UploadScreen.ProcessImage | frontend/prototipo/screens/Upload.tsx:24-27 | Processing starts iff a file is selected |
| Upload.UploadScreen.ProcessingComplete | frontend/prototipo/screens/Upload.tsx:28-31 | The timer ends processing and shows the completed panel |
| Upload.UploadScreen.UploadAnother | frontend/prototipo/screens/Upload.tsx:130 | "Subir otra" returns to an empty drop zone |
| Upload.UploadScreen.ViewResults | frontend/prototipo/screens/Upload.tsx:34-49 | The result context is built from the file selected at that moment |
| Upload.DropProcessView | frontend/prototipo/screens/Upload.tsx:16-49 | Dropping, processing and viewing yields a context named after the dropped file, with accuracy 91.2; "Subir otra" then shows an empty drop zone |
| Upload.RemoveWhileProcessing | frontend/prototipo/screens/Upload.tsx:87-95 | "Eliminar" stays enabled during processing, so the upload can complete without a file and the result is named "Imagen Procesada" |
| Predictions.CellBandSpec | frontend/prototipo/screens/Predictions.tsx:87 | Red iff risk above 60, yellow iff above 30 and at most 60, green iff at most 30; the thresholds belong to the lower band and the band never decreases with risk |
| Predictions.CellOpacitySpec | frontend/prototipo/screens/Predictions.tsx:88 | A percentage gives an opacity in [0, 1], increasing with the risk |
| Predictions.HexInjective | frontend/prototipo/screens/Predictions.tsx:87 | The three cell colours are distinct, so a colour identifies its band |
| Predictions.CellBand | frontend/prototipo/screens/Predictions.tsx:87 | The band a risk falls in, by the `> 60` and `> 30` tests; characterised by CellBandSpec |
| Predictions.CellOpacity | frontend/prototipo/screens/Predictions.tsx:88 | `riesgo / 100`; bounded and monotone by CellOpacitySpec |
| Predictions.HeatmapCell | frontend/prototipo/screens/Predictions.tsx:84-91 | One row's cell: its month, its band's colour and its opacity; characterised by HeatmapSpec |
| Predictions.Heatmap | frontend/prototipo/screens/Predictions.tsx:82-93 | The `map` over the table; characterised by HeatmapSpec |
| Predictions.PredictionsScreen.Shown | frontend/prototipo/screens/Predictions.tsx:56-96 | The chart over the table in chart mode, the heatmap otherwise; its use is stated by SetViewMode |
| Predictions.HeatmapSpec | frontend/prototipo/screens/Predictions.tsx:82-93 | One cell per table row, labelled with its month; a cell is red (#EF4444) exactly when the risk exceeds 60, yellow (#FACC15) exactly when it lies in (30, 60], green (#3DFF8A) exactly when it is at most 30; a percentage risk gives an opacity in [0, 1] |
| Predictions.TableOpacities | frontend/prototipo/screens/Predictions.tsx:6-14 | Every cell of the fixed table has an opacity in [0, 1] |
| Predictions.TableBands | frontend/prototipo/screens/Predictions.tsx:6-14 | On the fixed table April is red, March, May and June are yellow, and January, February and July are green |
| Predictions.PredictionsScreen.constructor | frontend/prototipo/screens/Predictions.tsx:30 | The screen starts in chart mode |
| Predictions.PredictionsScreen.SetViewMode | frontend/prototipo/screens/Predictions.tsx:40-51 | Each button sets its own mode: the heatmap shows seven cells and the chart shows the table |
| Predictions.PressTwice | frontend/prototipo/screens/Predictions.tsx:40-51 | Pressing a mode button twice shows the same as pressing it once, a heatmap exactly for the heatmap button |
| Settings.LanguageCodes | frontend/prototipo/screens/Settings.tsx:92-100 | The select offers exactly "es", "en" and "fr", one per language, and reading a code back gives its language |
| Settings.NotificationsExtensional | frontend/prototipo/screens/Settings.tsx:11-15 | The notification record is determined by its three switches |
| Settings.LanguageOf | frontend/prototipo/screens/Settings.tsx:94 | Reads a select value back; stated by LanguageCodes |
| Settings.Language.Code | frontend/prototipo/screens/Settings.tsx:97-99 | An option's value; stated by LanguageCodes |
| Settings.Notifications.Get | frontend/prototipo/screens/Settings.tsx:145 | A switch's current value |
| Settings.Notifications.Toggled | frontend/prototipo/screens/Settings.tsx:146 | `{...notifications, [key]: !notifications[key]}`; characterised by ToggledSpec and ToggledCommute |
| Settings.ToggledSpec | frontend/prototipo/screens/Settings.tsx:146 | A switch flips its own key only, and flipping it twice restores the record |
| Settings.ToggledCommute | frontend/prototipo/screens/Settings.tsx:146 | The order in which two switches are flipped does not matter |
| Settings.SettingsForm.constructor | frontend/prototipo/screens/Settings.tsx:10-17 | Spanish, e-mail and report notifications on, push off, developer mode off, not saving |
| Settings.SettingsForm.SetLanguage | frontend/prototipo/screens/Settings.tsx:94 | The select sets the language |
| Settings.SettingsForm.ToggleNotification | frontend/prototipo/screens/Settings.tsx:146 | A checkbox flips its own notification and no other |
| Settings.SettingsForm.ToggleDevMode | frontend/prototipo/screens/Settings.tsx:178 | The switch flips developer mode |
| Settings.SettingsForm.Save | frontend/prototipo/screens/Settings.tsx:19-20 | Saving starts |
| Settings.SettingsForm.SaveCompletes | frontend/prototipo/screens/Settings.tsx:21-24 | The timer ends saving and calls `onSave` once |
| Settings.ToggleTwiceAndSave | frontend/prototipo/screens/Settings.tsx:19-25 | Flipping a switch twice and saving leaves the initial preferences, ends saving and calls `onSave` once |
| AIAnalysis.ActiveData | frontend/prototipo/screens/AIAnalysis.tsx:15-21 | The given context when there is one; otherwise the default-sourced demonstration region with accuracy 87.24, dated 2023-10-24 |
| AIAnalysis.ConclusionSpec | frontend/prototipo/screens/AIAnalysis.tsx:137-140 | The strong-correlation sentence iff accuracy exceeds 90, manual review iff it is at most 90; exactly 90 asks for review; higher accuracy never turns a strong conclusion into a review |
| AIAnalysis.ConclusionsOfKnownContexts | frontend/prototipo/screens/AIAnalysis.tsx:137-140 | The demonstration context and every map region ask for manual review, and every upload result correlates strongly |
| AIAnalysis.ConclusionFor | frontend/prototipo/screens/AIAnalysis.tsx:137-140 | The `> 90` choice; characterised by ConclusionSpec |
| AIAnalysis.Conclusion.Text | frontend/prototipo/screens/AIAnalysis.tsx:138-139 | The sentence each conclusion appends |
| AIAnalysis.AIAnalysisScreen.constructor | frontend/prototipo/screens/AIAnalysis.tsx:11-12 | The slider starts at 50 and no download is running |
| AIAnalysis.AIAnalysisScreen.ShownConclusion | frontend/prototipo/screens/AIAnalysis.tsx:137-140 | The conclusion for the active context; stated by OpenWithoutData and the hand-off methods |
| AIAnalysis.AIAnalysisScreen.DownloadLabel | frontend/prototipo/screens/AIAnalysis.tsx:149-155 | The download button's caption; stated by Download |
| AIAnalysis.AIAnalysisScreen.SetSlider | frontend/prototipo/screens/AIAnalysis.tsx:23-25 | The slider takes the range input's value in [0, 100] |
| AIAnalysis.AIAnalysisScreen.Download | frontend/prototipo/screens/AIAnalysis.tsx:27-28 | The download starts and the button reads "Generando PDF..." |
| AIAnalysis.AIAnalysisScreen.DownloadCompletes | frontend/prototipo/screens/AIAnalysis.tsx:29-33 | The timer ends the download and the alert shows the report message |
| AIAnalysis.OpenWithoutData | frontend/prototipo/screens/AIAnalysis.tsx:11-21 | Opened without data, the screen shows the demonstration region with a manual-review conclusion and the slider at 50 |
| AIAnalysis.RegionHandOff | frontend/prototipo/screens/MapExplorer.tsx:22-36 | A region analysed from the map reaches this screen through the shell: it is named after the Po delta, comes from the map and asks for manual review |
| AIAnalysis.UploadHandOff | frontend/prototipo/screens/Upload.tsx:34-49 | An upload carried through to its results reaches this screen named after the file, from the upload source, with the strong-correlation conclusion |

## Left out

- Leaflet itself. The map is abstracted as the state the component changes: tile layers, overlay circles, handlers, centre and zoom. Tile loading, panning, `invalidateSize`, `bringToBack` and rendering are not modelled.
- The CDN check for the map library (`window.L`) is the `leafletLoaded` parameter, and the mounted container is the `containerMounted` parameter.
- SimulatedMap.MapComponent.ZoomIn: the zoom buttons are modelled as a step of one clamped to [2, 19]. Leaflet's animated zoom and zoom snapping are not modelled.
- The legend panel and the zoom buttons are pure rendering of the label list and the `interactive` flag. The model keeps the data they show, not their markup.
- Timers are not modelled as time. Each timer is a completion method that the caller invokes, and a timer firing after its component unmounted is not modelled (apart from the settings save, which the shell accepts in any state).
- `Date.now()` and `new Date().toLocaleDateString()` are string parameters of the functions that build analysis contexts.
- `alert()` is not modelled as I/O: the download's completion returns the alert's message.
- Login.CredentialsAccepted: the password length counts characters, not UTF-16 code units.
- MapExplorer's NDVI threshold slider is left out: it holds a floating-point value that nothing else reads.
- The upload's file size is shown formatted in megabytes; only the file name, which the result context uses, is modelled.
- AIAnalysis.FallbackContext: the demonstration record has no `id` in the source; the model gives it the empty string.
- The toast component's own auto-close timer, the sidebar's markup, the dashboard screen (apart from the label list it passes to the map), the static alerts screen, the timezone select and the search input are not part of this model.
- The chart on the predictions screen (a charting library) is not modelled; the model records only that the chart panel shows the forecast table.
- Handlers that the UI only offers while some element is rendered have that condition as a `requires`. The app's view changes, region analysis and upload analysis require a signed-in user. The upload screen's drop zone and file card require that the upload is not complete.
- Login.SubmitCallbacksSpec: the model starts at `handleSubmit`. The e-mail field is an `<input type="email">` inside a form without `noValidate` (screens/Login.tsx:59-64), so the browser's own validation cancels the submission for a non-empty value that is not a valid address, and trims surrounding whitespace; that validation is not modelled, so for such an e-mail pressing "Iniciar sesión" produces no callback at all.
- Login.FillAndSubmit: the same limit applies; it describes what happens once `handleSubmit` runs.
- App.SignInSession: the same limit applies; an e-mail the browser rejects produces no callback and leaves the login page without a toast.
- JavaScript numbers are modelled as exact reals: glow opacities (`0.15 * intensity`) and heatmap opacities (`riesgo / 100`) are exact in the model and rounded doubles in the program. No stated bound depends on the rounding.
