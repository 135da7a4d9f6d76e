/**
 * The page as a whole: script.js's module-level state (the current scene,
 * the image wall and the spinner, the batches of texture loads still in
 * flight, the navigation bar's active flags, the view button and its two
 * flags, the panorama scene, the home button and the clock) and the events
 * that change it. The functions script.js rebinds at load time are modelled
 * as the chain they form once the page is set up: the clock wraps
 * `updateImageWall`, and the home button and then the clock wrap
 * `transitionToImageWall`. A ghost trace records the hooks in the order they
 * run.
 */
module Landing {
  import opened Optional
  import opened WallLayout
  import opened CityTables
  import opened PhotoUrls
  import opened ViewToggle
  import opened ImageWall
  import opened ClockFace

  datatype SceneName = Globes | CityImages

  /** The steps of the selection hooks, as they run. */
  datatype Hook =
    | SceneEntered              // `currentScene = 'cityImages'`
    | BatchIssued(city: string) // the original `updateImageWall`
    | CityTimeUpdated(city: string)
    | ButtonCreated             // `createViewButton` and `setupButtonInteraction`
    | HomeShown                 // `homeGroup.visible = true`

  /** The hooks of `updateImageWall` as the clock rebinds it: the batch, then the clock. */
  function UpdateHooks(city: string): seq<Hook>
  {
    [BatchIssued(city), CityTimeUpdated(city)]
  }

  /**
   * The hooks of the original `transitionToImageWall`, which calls
   * `updateImageWall` through its global binding, the clock's wrapper, and
   * creates the view button only when there is none.
   */
  function TransitionHooks(city: string, hadButton: bool): seq<Hook>
  {
    [SceneEntered] + UpdateHooks(city) + (if hadButton then [] else [ButtonCreated])
  }

  /** The home button's wrapper runs the original, then shows the home button. */
  function HomeTransitionHooks(city: string, hadButton: bool): seq<Hook>
  {
    TransitionHooks(city, hadButton) + [HomeShown]
  }

  /** The clock's wrapper, installed last, runs the home button's wrapper, then updates the clock. */
  function ClockTransitionHooks(city: string, hadButton: bool): seq<Hook>
  {
    HomeTransitionHooks(city, hadButton) + [CityTimeUpdated(city)]
  }

  /**
   * The first navigation click runs the hooks in this order: the clock is
   * updated inside the transition, before the home button is shown, and
   * once more after it.
   */
  lemma FirstSelectionOrder(city: string)
    ensures ClockTransitionHooks(city, false) ==
      [SceneEntered, BatchIssued(city), CityTimeUpdated(city), ButtonCreated, HomeShown, CityTimeUpdated(city)]
    ensures |ClockTransitionHooks(city, false)| == 6
  {
  }

  /** The `active` class is on item `k` and on no other. */
  predicate OnlyActive(flags: seq<bool>, k: nat)
  {
    k < |flags| && forall j :: 0 <= j < |flags| ==> (flags[j] <==> j == k)
  }

  predicate NoneActive(flags: seq<bool>)
  {
    forall j :: 0 <= j < |flags| ==> !flags[j]
  }

  /** `document.querySelector('.nav-item.active')`: the first item in document order with the class. */
  function FirstActive(flags: seq<bool>): (r: Option<nat>)
    ensures r.Some? ==> r.value < |flags| && flags[r.value]
    ensures r.Some? ==> forall j :: 0 <= j < r.value ==> !flags[j]
    ensures r.None? <==> NoneActive(flags)
  {
    if flags == [] then None
    else if flags[0] then Some(0)
    else match FirstActive(flags[1..])
      case None => None
      case Some(j) => Some(j + 1)
  }

  /** With exactly one active item, the query finds that one. */
  lemma OnlyActiveFound(flags: seq<bool>, k: nat)
    requires OnlyActive(flags, k)
    ensures FirstActive(flags) == Some(k)
  {
    assert flags[k];
  }

  /** What one pass of `animate` draws and moves, before the home and clock updates. */
  datatype FramePlan = FramePlan(panorama: bool, rotateGlobes: bool, swayWall: bool,
                                 spinSpinner: bool, floatButton: bool)

  /**
   * The branch `animate` takes: the panorama alone while `is360View` is set,
   * otherwise the main scene with the animations of the parts that exist.
   */
  function PlanFrame(is360View: bool, scene: SceneName, spinnerVisible: bool, buttonExists: bool): (p: FramePlan)
    ensures p.panorama <==> is360View
    ensures p.panorama ==> !p.rotateGlobes && !p.swayWall && !p.spinSpinner && !p.floatButton
    ensures !(p.rotateGlobes && p.swayWall)
    ensures p.rotateGlobes ==> scene == Globes
    ensures p.swayWall ==> scene == CityImages
    ensures p.spinSpinner ==> spinnerVisible
    ensures p.floatButton ==> buttonExists
    ensures !is360View ==>
      && p.rotateGlobes == (scene == Globes) && p.swayWall == (scene == CityImages)
      && p.spinSpinner == spinnerVisible && p.floatButton == buttonExists
  {
    if is360View then FramePlan(true, false, false, false, false)
    else FramePlan(false, scene == Globes, scene == CityImages, spinnerVisible, buttonExists)
  }

  /** The spinner is never left showing once the latest batch has settled. */
  predicate SpinnerSettled(batches: seq<Batch>, spinnerVisible: bool)
  {
    batches != [] && Finished(batches[|batches| - 1]) ==> !spinnerVisible
  }

  predicate SceneOk(scene: SceneName, navActive: seq<bool>, selected: nat, viewButton: bool,
                    noBatches: bool, emptyWall: bool, wallVisible: bool, globesVisible: bool,
                    spinnerVisible: bool, homeVisible: bool, clockVisible: bool, clockCity: Option<string>)
  {
    && |navActive| == |Cities| && selected < |Cities|
    && (scene == Globes ==>
          && !viewButton && noBatches && emptyWall && !wallVisible && globesVisible
          && !spinnerVisible && !homeVisible && !clockVisible && clockCity == None
          && NoneActive(navActive))
    && (scene == CityImages ==>
          && viewButton && !noBatches && wallVisible && homeVisible && clockVisible
          && OnlyActive(navActive, selected) && clockCity == Some(Cities[selected].name))
  }

  class Page {
    var scene: SceneName
    var globesVisible: bool
    var wallVisible: bool
    var wall: seq<Tile>           // `imageWall.children`
    var spinnerVisible: bool
    var batches: seq<Batch>       // every `updateImageWall` call so far, oldest first
    var navActive: seq<bool>      // the `active` class of each navigation item
    var viewButton: bool          // whether `viewButton` has been created
    var is360View: bool
    var buttonEnabled: bool
    var buttonHovered: bool
    var panoramaCity: Option<string>        // the city of the current `panoramaScene`
    var panoramaSpheres: seq<nat>           // the requests whose sphere is in the current `panoramaScene`
    var panoramaLoads: seq<Option<string>>  // every panorama URL requested, `None` for `undefined`
    var panoramaDone: set<nat>              // the requests whose callback has run
    var homeVisible: bool
    var clockVisible: bool
    var clockCity: Option<string>           // `clockGroup.userData.currentCity`
    var timeText: Option<string>            // `clockGroup.userData.timeText`
    var clockChildren: seq<ClockChild>
    var fontLoaded: bool                    // `clockGroup.userData.font` is set
    ghost var selected: nat                 // the navigation item last clicked
    ghost var trace: seq<Hook>

    function ButtonState(): Button
      reads this`is360View, this`buttonEnabled, this`buttonHovered
    {
      Button(is360View, buttonEnabled, buttonHovered)
    }

    /** While the globes show, nothing has been selected; afterwards the selection drives the page. */
    ghost predicate SceneValid()
      reads this`navActive, this`selected, this`scene, this`viewButton, this`batches, this`wall,
            this`wallVisible, this`globesVisible, this`spinnerVisible, this`homeVisible,
            this`clockVisible, this`clockCity
    {
      SceneOk(scene, navActive, selected, viewButton, batches == [], wall == [], wallVisible, globesVisible,
              spinnerVisible, homeVisible, clockVisible, clockCity)
    }

    ghost predicate ButtonValid()
      reads this`is360View, this`buttonEnabled, this`buttonHovered, this`viewButton
    {
      && Coherent(ButtonState())
      && (!viewButton ==> ButtonState() == Installed)
    }

    /** Only requests that were made can have answered, and only answered ones have a sphere. */
    ghost predicate RequestsValid()
      reads this`panoramaDone, this`panoramaLoads, this`panoramaSpheres
    {
      && (forall r :: r in panoramaDone ==> r < |panoramaLoads|)
      && (forall j :: 0 <= j < |panoramaSpheres| ==> panoramaSpheres[j] in panoramaDone)
    }

    /** The scene, the wall and its batches, the spinner and the clock agree. */
    ghost predicate CoreValid()
      reads this`navActive, this`selected, this`scene, this`viewButton, this`batches, this`wall,
            this`wallVisible, this`globesVisible, this`spinnerVisible, this`homeVisible,
            this`clockVisible, this`clockCity, this`clockChildren, this`fontLoaded, this`timeText
    {
      && SceneValid() && SpinnerSettled(batches, spinnerVisible) && GroupValid(clockChildren, fontLoaded, timeText)
      && BatchesValid(batches) && WallValid(wall, batches)
    }

    /** While the panorama shows, it is the panorama of the selected city. */
    ghost predicate PanoramaValid()
      reads this`is360View, this`viewButton, this`panoramaCity, this`selected
    {
      is360View ==>
        && viewButton && selected < |Cities| && panoramaCity == Some(Cities[selected].name)
    }

    /** The view button's flags and the panorama requests agree with the selection. */
    ghost predicate ViewValid()
      reads this`is360View, this`buttonEnabled, this`buttonHovered, this`viewButton,
            this`panoramaCity, this`selected, this`panoramaLoads, this`panoramaDone, this`panoramaSpheres
    {
      ButtonValid() && RequestsValid() && PanoramaValid()
    }

    ghost predicate Valid()
      reads this
    {
      CoreValid() && ViewValid()
    }

    /** The page once the `DOMContentLoaded` handler has built the globes, the home button and the clock. */
    constructor ()
      ensures Valid()
      ensures scene == Globes && globesVisible && !wallVisible && wall == [] && batches == []
      ensures !viewButton && ButtonState() == Installed && !homeVisible && !clockVisible
      ensures clockChildren == InitialChildren && clockCity == None && timeText == None
      ensures NoneActive(navActive) && trace == []
      ensures !fontLoaded && !spinnerVisible
      ensures panoramaCity == None && panoramaSpheres == [] && panoramaLoads == [] && panoramaDone == {}
    {
      scene := Globes;
      globesVisible := true;
      wallVisible := false;
      wall := [];
      spinnerVisible := false;
      batches := [];
      navActive := seq(|Cities|, _ => false);
      viewButton := false;
      is360View := false;
      buttonEnabled := true;
      buttonHovered := false;
      panoramaCity := None;
      panoramaSpheres := [];
      panoramaLoads := [];
      panoramaDone := {};
      homeVisible := false;
      clockVisible := false;
      clockCity := None;
      timeText := None;
      clockChildren := InitialChildren;
      fontLoaded := false;
      selected := 0;
      trace := [];
    }

    /** `activateNavItem`: clear the class on every item, then set it on the chosen one. */
    method ActivateNavItem(k: nat)
      requires k < |navActive|
      modifies this`navActive
      ensures |navActive| == old(|navActive|)
      ensures OnlyActive(navActive, k)
    {
      var i := 0;
      while i < |navActive|
        invariant 0 <= i <= |navActive| == old(|navActive|)
        invariant forall j :: 0 <= j < i ==> !navActive[j]
      {
        navActive := navActive[i := false];
        i := i + 1;
      }
      navActive := navActive[k := true];
    }

    /** Activate item `k` and remember it as the selection. */
    method Select(k: nat)
      requires k < |navActive|
      modifies this`navActive, this`selected
      ensures |navActive| == old(|navActive|)
      ensures selected == k && OnlyActive(navActive, k)
    {
      ActivateNavItem(k);
      selected := k;
    }

    /**
     * The original `updateImageWall`: show the spinner, build the URL list,
     * empty the wall and issue one load per URL, counted by a fresh batch.
     */
    method UpdateImageWall(city: string, draws: seq<real>)
      requires |draws| == DefaultCount && DrawsInRange(draws)
      requires BatchesValid(batches)
      modifies this`spinnerVisible, this`wall, this`batches, this`trace
      ensures BatchesValid(batches) && WallValid(wall, batches) && SpinnerSettled(batches, spinnerVisible)
      ensures spinnerVisible && wall == []
      ensures batches == old(batches) + [Issue(city, CityImageUrls(city, draws))]
      ensures trace == old(trace) + [BatchIssued(city)]
    {
      spinnerVisible := true;
      var images := GetCityImageUrls(city, DefaultCount, draws);
      while |wall| > 0
        modifies this`wall
        decreases |wall|
      {
        wall := wall[1..];
      }
      IssueKeepsWall(batches, city, images);
      batches := batches + [Issue(city, images)];
      trace := trace + [BatchIssued(city)];
    }

    /** The clock's `updateCityTime`: a name without a time zone changes nothing. */
    method UpdateCityTime(city: string)
      requires GroupValid(clockChildren, fontLoaded, timeText)
      modifies this`clockCity, this`clockVisible, this`timeText, this`trace
      ensures GroupValid(clockChildren, fontLoaded, timeText)
      ensures trace == old(trace) + [CityTimeUpdated(city)]
      ensures !IsLabel(city) ==>
        clockCity == old(clockCity) && clockVisible == old(clockVisible) && timeText == old(timeText)
      ensures IsLabel(city) ==> clockCity == Some(city) && clockVisible && timeText == None
    {
      trace := trace + [CityTimeUpdated(city)];
      if TimeZone(city).None? {
        return;
      }
      clockCity := Some(city);
      clockVisible := true;
      timeText := None;
    }

    /** `updateImageWall` as the clock rebinds it: the original, then the clock update. */
    method ClockUpdateImageWall(city: string, draws: seq<real>)
      requires |draws| == DefaultCount && DrawsInRange(draws)
      requires BatchesValid(batches) && GroupValid(clockChildren, fontLoaded, timeText)
      modifies this`spinnerVisible, this`wall, this`batches, this`trace,
               this`clockCity, this`clockVisible, this`timeText
      ensures BatchesValid(batches) && WallValid(wall, batches) && SpinnerSettled(batches, spinnerVisible) && GroupValid(clockChildren, fontLoaded, timeText)
      ensures spinnerVisible && wall == []
      ensures batches == old(batches) + [Issue(city, CityImageUrls(city, draws))]
      ensures trace == old(trace) + UpdateHooks(city)
      ensures !IsLabel(city) ==>
        clockCity == old(clockCity) && clockVisible == old(clockVisible) && timeText == old(timeText)
      ensures IsLabel(city) ==> clockCity == Some(city) && clockVisible && timeText == None
    {
      UpdateImageWall(city, draws);
      UpdateCityTime(city);
    }

    /**
     * `createViewButton` and `setupButtonInteraction`: the button exists from
     * now on, and its handlers start enabled and not hovered.
     */
    method CreateViewButton()
      modifies this`viewButton, this`buttonEnabled, this`buttonHovered, this`trace
      ensures viewButton && buttonEnabled && !buttonHovered
      ensures trace == old(trace) + [ButtonCreated]
    {
      viewButton, buttonEnabled, buttonHovered := true, true, false;
      trace := trace + [ButtonCreated];
    }

    /**
     * The original `transitionToImageWall`: enter the city scene, show the
     * wall, call `updateImageWall` through its global binding, and create the
     * view button and its handlers the first time only.
     */
    method TransitionToImageWall(city: string, draws: seq<real>)
      requires |draws| == DefaultCount && DrawsInRange(draws)
      requires BatchesValid(batches) && GroupValid(clockChildren, fontLoaded, timeText)
      modifies this`scene, this`wallVisible, this`spinnerVisible, this`wall, this`batches, this`trace,
               this`clockCity, this`clockVisible, this`timeText,
               this`viewButton, this`buttonEnabled, this`buttonHovered
      ensures BatchesValid(batches) && WallValid(wall, batches) && SpinnerSettled(batches, spinnerVisible) && GroupValid(clockChildren, fontLoaded, timeText)
      ensures scene == CityImages && wallVisible && viewButton
      ensures spinnerVisible && wall == []
      ensures batches == old(batches) + [Issue(city, CityImageUrls(city, draws))]
      ensures trace == old(trace) + TransitionHooks(city, old(viewButton))
      ensures !IsLabel(city) ==>
        clockCity == old(clockCity) && clockVisible == old(clockVisible) && timeText == old(timeText)
      ensures IsLabel(city) ==> clockCity == Some(city) && clockVisible && timeText == None
      ensures old(viewButton) ==> buttonEnabled == old(buttonEnabled) && buttonHovered == old(buttonHovered)
      ensures !old(viewButton) ==> buttonEnabled && !buttonHovered
    {
      scene, wallVisible := CityImages, true;
      trace := trace + [SceneEntered];
      ClockUpdateImageWall(city, draws);
      if !viewButton {
        CreateViewButton();
      }
    }

    /** `transitionToImageWall` as the home button rebinds it: the original, then show the home button. */
    method HomeTransition(city: string, draws: seq<real>)
      requires |draws| == DefaultCount && DrawsInRange(draws)
      requires BatchesValid(batches) && GroupValid(clockChildren, fontLoaded, timeText)
      modifies this`scene, this`wallVisible, this`spinnerVisible, this`wall, this`batches, this`trace,
               this`clockCity, this`clockVisible, this`timeText,
               this`viewButton, this`buttonEnabled, this`buttonHovered, this`homeVisible
      ensures BatchesValid(batches) && WallValid(wall, batches) && SpinnerSettled(batches, spinnerVisible) && GroupValid(clockChildren, fontLoaded, timeText)
      ensures scene == CityImages && wallVisible && viewButton && homeVisible
      ensures spinnerVisible && wall == []
      ensures batches == old(batches) + [Issue(city, CityImageUrls(city, draws))]
      ensures trace == old(trace) + HomeTransitionHooks(city, old(viewButton))
      ensures !IsLabel(city) ==>
        clockCity == old(clockCity) && clockVisible == old(clockVisible) && timeText == old(timeText)
      ensures IsLabel(city) ==> clockCity == Some(city) && clockVisible && timeText == None
      ensures old(viewButton) ==> buttonEnabled == old(buttonEnabled) && buttonHovered == old(buttonHovered)
      ensures !old(viewButton) ==> buttonEnabled && !buttonHovered
    {
      TransitionToImageWall(city, draws);
      homeVisible := true;
      trace := trace + [HomeShown];
    }

    /** `transitionToImageWall` as the clock rebinds it on top of the home button's wrapper. */
    method ClockTransition(city: string, draws: seq<real>)
      requires |draws| == DefaultCount && DrawsInRange(draws)
      requires BatchesValid(batches) && GroupValid(clockChildren, fontLoaded, timeText)
      modifies this`scene, this`wallVisible, this`spinnerVisible, this`wall, this`batches, this`trace,
               this`clockCity, this`clockVisible, this`timeText,
               this`viewButton, this`buttonEnabled, this`buttonHovered, this`homeVisible
      ensures BatchesValid(batches) && WallValid(wall, batches) && SpinnerSettled(batches, spinnerVisible) && GroupValid(clockChildren, fontLoaded, timeText)
      ensures scene == CityImages && wallVisible && viewButton && homeVisible
      ensures spinnerVisible && wall == []
      ensures batches == old(batches) + [Issue(city, CityImageUrls(city, draws))]
      ensures trace == old(trace) + ClockTransitionHooks(city, old(viewButton))
      ensures !IsLabel(city) ==>
        clockCity == old(clockCity) && clockVisible == old(clockVisible) && timeText == old(timeText)
      ensures IsLabel(city) ==> clockCity == Some(city) && clockVisible && timeText == None
      ensures old(viewButton) ==> buttonEnabled == old(buttonEnabled) && buttonHovered == old(buttonHovered)
      ensures !old(viewButton) ==> buttonEnabled && !buttonHovered
    {
      HomeTransition(city, draws);
      UpdateCityTime(city);
    }

    /** `create360Scene`: a fresh, empty panorama scene and a request for the city's panorama. */
    method Create360Scene(cityName: string)
      modifies this`panoramaCity, this`panoramaSpheres, this`panoramaLoads
      ensures panoramaCity == Some(cityName) && panoramaSpheres == []
      ensures panoramaLoads == old(panoramaLoads) + [PanoramaUrl(cityName)]
    {
      panoramaCity := Some(cityName);
      panoramaSpheres := [];
      panoramaLoads := panoramaLoads + [PanoramaUrl(cityName)];
    }

    /** The leaving branch of the click handler: `is360View = false; buttonEnabled = true`. */
    method Leave360View()
      requires CoreValid() && ButtonValid() && RequestsValid() && is360View
      modifies this`is360View, this`buttonEnabled
      ensures ViewValid()
      ensures ButtonState() == Click(old(ButtonState()), false)
    {
      is360View := false;
      buttonEnabled := true;
    }

    /** `document.querySelector('.nav-item.active').textContent`: the label of the active item. */
    method ActiveCity() returns (name: string)
      requires OnlyActive(navActive, selected) && |navActive| == |Cities|
      ensures name == Cities[selected].name
    {
      OnlyActiveFound(navActive, selected);
      var active := FirstActive(navActive);
      name := Cities[active.value].name;
    }

    /**
     * The entering branch of the click handler: disable the button, set
     * `is360View` and build the panorama of the city whose navigation item is
     * active.
     */
    method Enter360View()
      requires CoreValid() && ButtonValid() && RequestsValid() && viewButton && !is360View && buttonEnabled
      modifies this`is360View, this`buttonEnabled, this`panoramaCity, this`panoramaSpheres, this`panoramaLoads
      ensures ViewValid()
      ensures ButtonState() == Click(old(ButtonState()), true)
      ensures panoramaCity == Some(Cities[selected].name) && panoramaSpheres == []
      ensures panoramaLoads == old(panoramaLoads) + [PanoramaUrl(Cities[selected].name)]
    {
      var activeCity := ActiveCity();
      Create360Scene(activeCity);
      buttonEnabled, is360View := false, true;
    }

    /**
     * The window click handler of the view button, once it is installed:
     * leave the panorama on any click, or enter it, for the active city, on a
     * click that hits the enabled button.
     */
    method WindowClick(hit: bool)
      requires CoreValid() && ButtonValid() && RequestsValid()
      modifies this`is360View, this`buttonEnabled, this`panoramaCity, this`panoramaSpheres, this`panoramaLoads
      ensures Valid()
      ensures viewButton ==> ButtonState() == Click(old(ButtonState()), hit)
      ensures !viewButton ==> ButtonState() == old(ButtonState())
      ensures is360View && !old(is360View) ==>
        && panoramaCity == Some(Cities[selected].name) && panoramaSpheres == []
        && panoramaLoads == old(panoramaLoads) + [PanoramaUrl(Cities[selected].name)]
      ensures !(is360View && !old(is360View)) ==>
        && panoramaCity == old(panoramaCity) && panoramaSpheres == old(panoramaSpheres)
        && panoramaLoads == old(panoramaLoads)
    {
      if !viewButton {
        return;
      }
      if is360View {
        Leave360View();
      } else if hit && buttonEnabled {
        Enter360View();
      }
    }

    /** The globes branch of the listener `createNavItems` attaches to item `k`. */
    method FirstSelection(k: nat, draws: seq<real>)
      requires CoreValid() && ButtonValid() && scene == Globes && k < |Cities| && |draws| == DefaultCount && DrawsInRange(draws)
      modifies this`navActive, this`selected, this`scene, this`wallVisible, this`spinnerVisible,
               this`wall, this`batches, this`trace, this`clockCity, this`clockVisible, this`timeText,
               this`viewButton, this`buttonEnabled, this`buttonHovered, this`homeVisible
      ensures CoreValid() && ButtonValid()
      ensures scene == CityImages && selected == k && OnlyActive(navActive, k)
      ensures batches == old(batches) + [Issue(Cities[k].name, CityImageUrls(Cities[k].name, draws))]
      ensures wall == [] && spinnerVisible && wallVisible && homeVisible && viewButton
      ensures clockCity == Some(Cities[k].name) && clockVisible && timeText == None
      ensures trace == old(trace) + ClockTransitionHooks(Cities[k].name, false)
      ensures ButtonState() == old(ButtonState())
    {
      Select(k);
      var city := Cities[k].name;
      assert IsLabel(city);
      ClockTransition(city, draws);
    }

    /** The city-scene branch of the listener `createNavItems` attaches to item `k`. */
    method NextSelection(k: nat, draws: seq<real>)
      requires CoreValid() && ButtonValid() && scene == CityImages && k < |Cities| && |draws| == DefaultCount && DrawsInRange(draws)
      modifies this`navActive, this`selected, this`wallVisible, this`spinnerVisible,
               this`wall, this`batches, this`trace, this`clockCity, this`clockVisible, this`timeText
      ensures CoreValid() && ButtonValid()
      ensures scene == CityImages && selected == k && OnlyActive(navActive, k)
      ensures batches == old(batches) + [Issue(Cities[k].name, CityImageUrls(Cities[k].name, draws))]
      ensures wall == [] && spinnerVisible && wallVisible && homeVisible && viewButton
      ensures clockCity == Some(Cities[k].name) && clockVisible && timeText == None
      ensures trace == old(trace) + UpdateHooks(Cities[k].name)
    {
      Select(k);
      var city := Cities[k].name;
      assert IsLabel(city);
      ClockUpdateImageWall(city, draws);
    }

    /**
     * The listener `createNavItems` attaches to item `k`: activate the item,
     * then take the transition path from the globes or the update path
     * afterwards. The view button's flags come out as they went in: a button
     * created here starts with the flags the globes scene already had.
     */
    method NavItemClick(k: nat, draws: seq<real>)
      requires CoreValid() && ButtonValid() && k < |Cities| && |draws| == DefaultCount && DrawsInRange(draws)
      modifies this`navActive, this`selected, this`scene, this`wallVisible, this`spinnerVisible,
               this`wall, this`batches, this`trace, this`clockCity, this`clockVisible, this`timeText,
               this`viewButton, this`buttonEnabled, this`buttonHovered, this`homeVisible
      ensures CoreValid() && ButtonValid()
      ensures scene == CityImages && selected == k && OnlyActive(navActive, k)
      ensures batches == old(batches) + [Issue(Cities[k].name, CityImageUrls(Cities[k].name, draws))]
      ensures wall == [] && spinnerVisible && wallVisible && homeVisible && viewButton
      ensures clockCity == Some(Cities[k].name) && clockVisible && timeText == None
      ensures old(scene) == Globes ==> trace == old(trace) + ClockTransitionHooks(Cities[k].name, false)
      ensures old(scene) == CityImages ==> trace == old(trace) + UpdateHooks(Cities[k].name)
      ensures ButtonState() == old(ButtonState())
    {
      if scene == Globes {
        FirstSelection(k, draws);
      } else {
        NextSelection(k, draws);
      }
    }

    /**
     * A click on navigation item `k`: the item's own listener, after which
     * the click bubbles up to the window, where the view button's handler
     * runs, even when the item's listener has just installed it.
     */
    method NavClick(k: nat, draws: seq<real>, hit: bool)
      requires Valid() && k < |Cities| && |draws| == DefaultCount && DrawsInRange(draws)
      modifies this`navActive, this`selected, this`scene, this`wallVisible, this`spinnerVisible,
               this`wall, this`batches, this`trace, this`clockCity, this`clockVisible, this`timeText,
               this`viewButton, this`buttonEnabled, this`buttonHovered, this`homeVisible,
               this`is360View, this`panoramaCity, this`panoramaSpheres, this`panoramaLoads
      ensures Valid()
      ensures scene == CityImages && selected == k && OnlyActive(navActive, k)
      ensures batches == old(batches) + [Issue(Cities[k].name, CityImageUrls(Cities[k].name, draws))]
      ensures wall == [] && spinnerVisible && wallVisible && homeVisible && viewButton
      ensures clockCity == Some(Cities[k].name) && clockVisible && timeText == None
      ensures old(scene) == Globes ==> trace == old(trace) + ClockTransitionHooks(Cities[k].name, false)
      ensures old(scene) == CityImages ==> trace == old(trace) + UpdateHooks(Cities[k].name)
      ensures ButtonState() == Click(old(ButtonState()), hit)
      ensures is360View && !old(is360View) ==>
        && panoramaCity == Some(Cities[k].name) && panoramaSpheres == []
        && panoramaLoads == old(panoramaLoads) + [PanoramaUrl(Cities[k].name)]
      ensures !(is360View && !old(is360View)) ==>
        && panoramaCity == old(panoramaCity) && panoramaSpheres == old(panoramaSpheres)
        && panoramaLoads == old(panoramaLoads)
    {
      NavItemClick(k, draws);
      WindowClick(hit);
    }
  
    /**
     * The success (`ok`) or error callback of load `i` of batch `b`, which
     * need not be the latest batch: a success adds its tile to the wall as
     * it is now, and the callback that fills its own batch's `loadedCount`
     * hides the spinner.
     */
    method LoadSettled(b: nat, i: nat, ok: bool)
      requires Valid() && b < |batches| && Pending(batches[b], i)
      modifies this`batches, this`wall, this`spinnerVisible
      ensures Valid()
      ensures batches == old(batches[b := Settle(batches[b], i, ok)])
      ensures wall == old(SettleWall(wall, batches, b, i, ok))
      ensures spinnerVisible == (old(spinnerVisible) && !Finished(batches[b]))
    {
      SettleKeepsWall(wall, batches, b, i, ok);
      assert scene == CityImages;
      var batch := Settle(batches[b], i, ok);
      var tiles := SettleWall(wall, batches, b, i, ok);
      var filled := batch.loaded == |batch.urls|;
      batches, wall, spinnerVisible := batches[b := batch], tiles, spinnerVisible && !filled;
    }

    /**
     * The load callback of panorama request `r`: its sphere goes into the
     * panorama scene current when it answers, whichever request created that scene.
     */
    method PanoramaLoaded(r: nat)
      requires Valid() && r < |panoramaLoads| && r !in panoramaDone && panoramaLoads[r].Some?
      modifies this`panoramaSpheres, this`panoramaDone
      ensures Valid()
      ensures panoramaSpheres == old(panoramaSpheres) + [r] && panoramaDone == old(panoramaDone) + {r}
    {
      panoramaSpheres, panoramaDone := panoramaSpheres + [r], panoramaDone + {r};
    }

    /**
     * The view button's mousemove handler, once it is installed: the cursor
     * it sets and the hover flag it keeps. The body follows the handler's own
     * branches, updating the flag in place; `Hover` is the specification it
     * is proved against.
     */
    method MouseMove(hit: bool) returns (cursor: Cursor)
      requires Valid()
      modifies this`buttonHovered
      ensures Valid()
      ensures viewButton ==> (ButtonState(), cursor) == Hover(old(ButtonState()), hit)
      ensures !viewButton ==> buttonHovered == old(buttonHovered) && cursor == KeepCursor
    {
      if !viewButton {
        return KeepCursor;
      }
      if !buttonEnabled {
        return DefaultCursor;
      }
      cursor := KeepCursor;
      if hit {
        if !buttonHovered {
          buttonHovered := true;
          cursor := PointerCursor;
        }
      } else if buttonHovered {
        buttonHovered := false;
        cursor := DefaultCursor;
      }
    }

    /** The font loader's callback: `clockGroup.userData.font` is set. */
    method FontLoaded()
      requires Valid()
      modifies this`fontLoaded
      ensures Valid() && fontLoaded
    {
      fontLoaded := true;
    }

    /** The `onComplete` of the globes' fade-out tween. */
    method GlobesFadeOutComplete()
      requires Valid() && scene == CityImages
      modifies this`globesVisible
      ensures Valid() && !globesVisible
    {
      globesVisible := false;
    }

    /**
     * `animateClock` with `cityTime` as the formatted time of the clock's
     * city: while the clock shows a city, a new time with the font loaded
     * replaces the first text child by a text of the new time.
     */
    method AnimateClock(cityTime: string)
      requires GroupValid(clockChildren, fontLoaded, timeText)
      modifies this`clockChildren, this`timeText
      ensures GroupValid(clockChildren, fontLoaded, timeText)
      ensures clockVisible && clockCity.Some? && old(timeText) != Some(cityTime) && fontLoaded ==>
        && clockChildren == DropFirstText(old(clockChildren)) + [TimeText(cityTime)]
        && timeText == Some(cityTime) && TextCount(clockChildren) == 1
      ensures !(clockVisible && clockCity.Some? && old(timeText) != Some(cityTime) && fontLoaded) ==>
        clockChildren == old(clockChildren) && timeText == old(timeText)
    {
      if clockVisible && clockCity.Some? && timeText != Some(cityTime) && fontLoaded {
        var k := FindFirstText(clockChildren);
        SwapKeepsGroup(clockChildren, fontLoaded, timeText, cityTime);
        var kept := clockChildren;
        if k >= 0 {
          DropFirstTextAt(clockChildren, k);
          kept := clockChildren[..k] + clockChildren[k + 1..];
        } else {
          DropFirstTextNone(clockChildren);
        }
        clockChildren, timeText := kept + [TimeText(cityTime)], Some(cityTime);
      }
    }

    /**
     * One pass of `animate` as rebound at load time: the original's branch,
     * then the home button's update, then the clock's.
     */
    method Frame(cityTime: string) returns (plan: FramePlan)
      requires Valid()
      modifies this`clockChildren, this`timeText
      ensures Valid()
      ensures plan == PlanFrame(is360View, scene, spinnerVisible, viewButton)
      ensures clockVisible && clockCity.Some? && old(timeText) != Some(cityTime) && fontLoaded ==>
        && clockChildren == DropFirstText(old(clockChildren)) + [TimeText(cityTime)]
        && timeText == Some(cityTime)
      ensures !(clockVisible && clockCity.Some? && old(timeText) != Some(cityTime) && fontLoaded) ==>
        clockChildren == old(clockChildren) && timeText == old(timeText)
    {
      plan := PlanFrame(is360View, scene, spinnerVisible, viewButton);
      AnimateClock(cityTime);
    }
  }
}
