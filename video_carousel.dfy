/** The featured-titles carousel at the top of the streaming home screen. */
module VideoCarousel {
  import opened Wrappers

  datatype FeaturedItem = FeaturedItem(id: string, title: string, description: string, videoUri: string)

  /** `FEATURED_DATA` */
  const FeaturedData: seq<FeaturedItem> := [
    FeaturedItem("1", "Wednesday",
      "Smart, sarcastic and a little dead inside, Wednesday Addams investigates a murder spree while making new friends \U{2014} and foes \U{2014} at Nevermore Academy.",
      "https://videos.pexels.com/video-files/4907625/4907625-sd_338_640_25fps.mp4"),
    FeaturedItem("2", "Stranger Things",
      "When a young boy vanishes, a small town uncovers a mystery involving secret experiments, terrifying supernatural forces and one strange little girl.",
      "https://videos.pexels.com/video-files/30562583/13089052_360_640_30fps.mp4"),
    FeaturedItem("3", "The Witcher",
      "Geralt of Rivia, a mutated monster-hunter for hire, journeys toward his destiny in a turbulent world where people often prove more wicked than beasts.",
      "https://videos.pexels.com/video-files/3444528/3444528-sd_360_640_25fps.mp4")
  ]

  const DetailsImageUri := "https://images.pexels.com/photos/14861662/pexels-photo-14861662.jpeg?auto=compress&cs=tinysrgb&h=650&w=940"

  /** The route parameters of the player and details screens. */
  datatype PlayParams = PlayParams(id: string, title: string, videoUri: string)

  datatype DetailsParams = DetailsParams(id: string, title: string, description: string, imageUri: string)

  /** Reading a field of a missing slide throws. */
  datatype RuntimeError = TypeError

  /** The auto-advance rule: the next slide, or back to the first after the last. */
  function NextIndex(current: int, count: int): int
  {
    if current < count - 1 then current + 1 else 0
  }

  /** n auto-advances from slide i. */
  function Advance(i: int, count: int, n: nat): int
  {
    if n == 0 then i else NextIndex(Advance(i, count, n - 1), count)
  }

  /** From a slide in range the next slide is in range. */
  lemma NextIndexInRange(current: int, count: int)
    requires 0 <= current < count
    ensures 0 <= NextIndex(current, count) < count
    ensures NextIndex(current, count) == (current + 1) % count
  {
  }

  /** While the last slide is not reached, each auto-advance moves one slide on. */
  lemma {:induction false} AdvanceWithinRange(i: int, count: int, k: nat)
    requires 0 <= i && i + k < count
    ensures Advance(i, count, k) == i + k
  {
    if k > 0 {
      AdvanceWithinRange(i, count, k - 1);
    }
  }

  lemma {:induction false} AdvanceCompose(i: int, count: int, a: nat, b: nat)
    ensures Advance(i, count, a + b) == Advance(Advance(i, count, a), count, b)
  {
    if b > 0 {
      AdvanceCompose(i, count, a, b - 1);
    }
  }

  /** After as many auto-advances as there are slides, the carousel is back where it started. */
  lemma AdvanceFullCycle(i: int, count: int)
    requires 0 <= i < count
    ensures Advance(i, count, count) == i
  {
    var toLast := count - 1 - i;
    AdvanceWithinRange(i, count, toLast);
    AdvanceCompose(i, count, toLast, 1);
    AdvanceCompose(i, count, toLast + 1, i);
    AdvanceWithinRange(0, count, i);
  }

  /** The pagination dots, one per slide; a dot is highlighted when its index is the current one. */
  function PaginationDots(current: int): seq<bool>
  {
    seq(|FeaturedData|, i requires 0 <= i < |FeaturedData| => current == i)
  }

  /** Exactly the dot of the current slide is active, and none when the index is out of range. */
  lemma ActiveDotExact(current: int)
    ensures var dots := PaginationDots(current);
      |dots| == |FeaturedData| &&
      (0 <= current < |FeaturedData| ==> (set i | 0 <= i < |dots| && dots[i]) == {current}) &&
      (!(0 <= current < |FeaturedData|) ==> (set i | 0 <= i < |dots| && dots[i]) == {})
  {
    var dots := PaginationDots(current);
    if 0 <= current < |FeaturedData| {
      assert dots[current];
    }
  }

  class Carousel {
    var currentIndex: int

    constructor ()
      ensures currentIndex == 0
    {
      currentIndex := 0;
    }

    /** Where the auto-advance timer scrolls to from the current slide. */
    method AutoScrollTarget() returns (target: int)
      ensures currentIndex < |FeaturedData| - 1 ==> target == currentIndex + 1
      ensures currentIndex >= |FeaturedData| - 1 ==> target == 0
      ensures 0 <= currentIndex < |FeaturedData| ==> 0 <= target < |FeaturedData|
    {
      if currentIndex < |FeaturedData| - 1 {
        target := currentIndex + 1;
      } else {
        target := 0;
      }
    }

    /** The end of a paging scroll sets the slide the list came to rest on. */
    method OnMomentumScrollEnd(newIndex: int)
      modifies this
      ensures currentIndex == newIndex
    {
      currentIndex := newIndex;
    }

    /** Play opens the player only when there is a slide at the current index. */
    method HandlePlay() returns (navigation: Option<PlayParams>)
      ensures navigation.Some? <==> 0 <= currentIndex < |FeaturedData|
      ensures navigation.Some? ==>
        var item := FeaturedData[currentIndex];
        navigation.value == PlayParams(item.id, item.title, item.videoUri)
    {
      navigation := None;
      if 0 <= currentIndex < |FeaturedData| {
        var item := FeaturedData[currentIndex];
        navigation := Some(PlayParams(item.id, item.title, item.videoUri));
      }
    }

    /** More info has no guard: reading a missing slide is a run-time error. */
    method HandleMoreInfo() returns (navigation: Result<DetailsParams, RuntimeError>)
      ensures navigation.Ok? <==> 0 <= currentIndex < |FeaturedData|
      ensures navigation.Ok? ==>
        var item := FeaturedData[currentIndex];
        navigation.value == DetailsParams(item.id, item.title, item.description, DetailsImageUri)
    {
      if 0 <= currentIndex < |FeaturedData| {
        var item := FeaturedData[currentIndex];
        navigation := Ok(DetailsParams(item.id, item.title, item.description, DetailsImageUri));
      } else {
        navigation := Err(TypeError);
      }
    }
  }
}
