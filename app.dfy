/** The application object: the state `GaiaScoutApp` keeps and the page state its handlers change. */
module App {
  import opened Wrappers
  import opened Detection
  import opened Discoveries
  import opened Gpr
  import Auth

  class GaiaScoutApp {
    /** The depth the slider or a layer button last selected, in metres. */
    var currentDepth: real
    /** The user's location; the source never moves it. */
    const userLocation: LatLng
    /** Detection boxes drawn on the camera overlay, oldest first. */
    var overlay: seq<Detection>
    /** Children of the discoveries list, newest first. */
    var discoveries: seq<DiscoveryItem>
    /** `style.display` of the sign-in modal. */
    var authModalDisplay: string
    /** Markup of the user button in the header. */
    var userButton: string

    /** A new app over a page whose overlay, discoveries list, modal and user button start as given. */
    constructor (boxes: seq<Detection>, feed: seq<DiscoveryItem>, modalDisplay: string, button: string)
      ensures currentDepth == 0.5 && userLocation == LatLng(36.7538, 3.0588)
      ensures overlay == boxes && discoveries == feed
      ensures authModalDisplay == modalDisplay && userButton == button
    {
      currentDepth := 0.5;
      userLocation := LatLng(36.7538, 3.0588);
      overlay := boxes;
      discoveries := feed;
      authModalDisplay := modalDisplay;
      userButton := button;
    }

    /** The depth slider's and the layer buttons' handler: select a new depth, then regenerate
        the readings for it. */
    method SetDepth(depth: real, noise: seq<real>) returns (data: seq<GprPoint>)
      requires |noise| == GridSize * GridSize
      modifies this`currentDepth
      ensures currentDepth == depth
      ensures |data| == GridSize * GridSize
      ensures forall k :: 0 <= k < |data| ==>
                data[k] == GridPoint(userLocation, depth, k / GridSize, k % GridSize, noise[k])
    {
      currentDepth := depth;
      data := UpdateGprVisualization(noise);
    }

    /** `addDetection`: draw a box for the detection on the overlay. */
    method AddDetection(d: Detection)
      modifies this`overlay
      ensures overlay == old(overlay) + [d]
    {
      overlay := overlay + [d];
    }

    /** `addToDiscoveries`: put the item in front, then drop items from the end until five remain. */
    method AddToDiscoveries(d: Detection)
      modifies this`discoveries
      ensures discoveries == Recent(old(discoveries), ItemFor(d, currentDepth))
    {
      var item := ItemFor(d, currentDepth);
      ghost var full := [item] + discoveries;
      discoveries := [item] + discoveries;
      while |discoveries| > MaxDiscoveries
        invariant discoveries == full[..|discoveries|]
        invariant |discoveries| >= Min(|full|, MaxDiscoveries)
      {
        discoveries := discoveries[..|discoveries| - 1];
      }
    }

    /** `performAIDetection`: on a detection, draw it and record it; otherwise change nothing. */
    method PerformAIDetection(s: Samples)
      requires AllSamples(s)
      modifies this`overlay, this`discoveries
      ensures Detect(s).None? ==> overlay == old(overlay) && discoveries == old(discoveries)
      ensures Detect(s).Some? ==>
        && overlay == old(overlay) + [Detect(s).value]
        && discoveries == Recent(old(discoveries), ItemFor(Detect(s).value, currentDepth))
    {
      var r := Detect(s);
      if r.Some? {
        AddDetection(r.value);
        AddToDiscoveries(r.value);
      }
    }

    /** One pass of the scan loop: attempt a detection only when the video is ready. */
    method ScanTick(readyState: int, s: Samples)
      requires AllSamples(s)
      modifies this`overlay, this`discoveries
      ensures Tick(readyState, s).None? ==> overlay == old(overlay) && discoveries == old(discoveries)
      ensures Tick(readyState, s).Some? ==>
        && overlay == old(overlay) + [Tick(readyState, s).value]
        && discoveries == Recent(old(discoveries), ItemFor(Tick(readyState, s).value, currentDepth))
    {
      if readyState == HaveEnoughData {
        PerformAIDetection(s);
      }
    }

    /** `generateGPRData`: a 10 by 10 grid around the user, row by row, one noise sample per point. */
    method GenerateGprData(depth: real, noise: seq<real>) returns (data: seq<GprPoint>)
      requires |noise| == GridSize * GridSize
      ensures |data| == GridSize * GridSize
      ensures forall k :: 0 <= k < |data| ==>
                data[k] == GridPoint(userLocation, depth, k / GridSize, k % GridSize, noise[k])
    {
      data := [];
      for i := 0 to GridSize
        invariant |data| == i * GridSize
        invariant forall k :: 0 <= k < |data| ==>
                    data[k] == GridPoint(userLocation, depth, k / GridSize, k % GridSize, noise[k])
      {
        for j := 0 to GridSize
          invariant |data| == i * GridSize + j
          invariant forall k :: 0 <= k < |data| ==>
                      data[k] == GridPoint(userLocation, depth, k / GridSize, k % GridSize, noise[k])
        {
          var k := i * GridSize + j;
          assert k / GridSize == i && k % GridSize == j;
          data := data + [GridPoint(userLocation, depth, i, j, noise[k])];
        }
      }
    }

    /** `updateGPRVisualization`: the readings for the current depth (drawing them is the map's job). */
    method UpdateGprVisualization(noise: seq<real>) returns (data: seq<GprPoint>)
      requires |noise| == GridSize * GridSize
      ensures |data| == GridSize * GridSize
      ensures forall k :: 0 <= k < |data| ==>
                data[k] == GridPoint(userLocation, currentDepth, k / GridSize, k % GridSize, noise[k])
    {
      data := GenerateGprData(currentDepth, noise);
    }

    /** `toggleAuth`: open a closed modal, close any other. */
    method ToggleAuth()
      modifies this`authModalDisplay
      ensures authModalDisplay == Auth.Toggled(old(authModalDisplay))
    {
      authModalDisplay := Auth.Toggled(authModalDisplay);
    }

    /** `handleAuth`: with both fields filled, show the name before the '@' and toggle the modal. */
    method HandleAuth(email: string, password: string)
      modifies this`userButton, this`authModalDisplay
      ensures !Auth.Accepts(email, password) ==>
                userButton == old(userButton) && authModalDisplay == old(authModalDisplay)
      ensures Auth.Accepts(email, password) ==>
                && userButton == Auth.UserIcon + Auth.DisplayName(email)
                && authModalDisplay == Auth.Toggled(old(authModalDisplay))
    {
      if email != "" && password != "" {
        userButton := Auth.UserIcon + Auth.DisplayName(email);
        ToggleAuth();
      }
    }
  }
}
