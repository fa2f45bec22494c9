/** `components/image-slideshow.tsx`: eight background images cross-faded on a 5000 ms
    interval. */
module ImageSlideshowComponent {
  import opened Cyclic

  datatype SlideImage = SlideImage(url: string, alt: string)

  const Images: seq<SlideImage> := [
    SlideImage("https://hebbkx1anhila5yf.public.blob.vercel-storage.com/china-2542630.jpg-uGMwef7x3VhV70ZvawHqBydurbnLaN.jpeg",
               "Ancient Chinese calligraphy with red seals"),
    SlideImage("https://hebbkx1anhila5yf.public.blob.vercel-storage.com/panda-4421395%20%281%29.jpg-06S35yED6YL4eYFXtPti2cNijXPZvE.jpeg",
               "Panda eating bamboo with yellow background"),
    SlideImage("https://hebbkx1anhila5yf.public.blob.vercel-storage.com/woman-4456845.jpg-EqAYA7i1efmLm3IJJi9xEjIo05Ghky.jpeg",
               "Woman in traditional clothing at Chinese architecture"),
    SlideImage("https://hebbkx1anhila5yf.public.blob.vercel-storage.com/roof-4456833.jpg-O6naQ1I4V6HJjtgULyonPgl74mrFXE.jpeg",
               "Traditional Chinese buildings with curved roofs"),
    SlideImage("https://hebbkx1anhila5yf.public.blob.vercel-storage.com/lugu-lake-4648775.jpg-ZQiG8ENNHJ14QvAUDH7n0iGqyGfvA2.jpeg",
               "Traditional village on Lugu Lake surrounded by mountains"),
    SlideImage("https://hebbkx1anhila5yf.public.blob.vercel-storage.com/yellow-mountains-532857.jpg-Shjh5CwsvI1WxMAfdFY8xB49aClPc8.jpeg",
               "Yellow Mountains with dramatic peaks above sea of clouds"),
    SlideImage("https://hebbkx1anhila5yf.public.blob.vercel-storage.com/great-wall-of-china-3022907.jpg-OGYV3MUqkMdAHXSsPQZJWFBFTmmvIF.jpeg",
               "Great Wall of China winding through misty mountains"),
    SlideImage("https://hebbkx1anhila5yf.public.blob.vercel-storage.com/road-4103334.jpg-f77OkGd07yFi7ZyTW6nllfMDRlGIyO.jpeg",
               "Vibrant night street with neon Chinese signs in urban setting")
  ]

  /** `image.url || "/placeholder.svg"`. */
  function Source(image: SlideImage): (src: string)
    ensures image.url != "" ==> src == image.url
    ensures image.url == "" ==> src == "/placeholder.svg"
  {
    if image.url != "" then image.url else "/placeholder.svg"
  }

  /** Every image has its own address, so the placeholder is never shown. */
  lemma NoPlaceholder(index: nat)
    requires index < |Images|
    ensures Source(Images[index]) == Images[index].url
    ensures Source(Images[index]) != "/placeholder.svg"
  {
  }

  /** Only the first image is loaded with priority. */
  function Priority(index: nat): (p: bool)
    ensures p <==> index == 0
  {
    index == 0
  }

  class Slideshow {
    var currentIndex: nat

    ghost predicate Valid()
      reads this
    {
      currentIndex < |Images|
    }

    constructor ()
      ensures Valid() && currentIndex == 0
    {
      currentIndex := 0;
    }

    /** One interval tick: advance by one, wrapping after the eighth image. */
    method Tick()
      requires Valid()
      modifies this
      ensures Valid()
      ensures currentIndex == Next(old(currentIndex), |Images|)
    {
      currentIndex := (currentIndex + 1) % |Images|;
    }

    /** The opacity class of slide `index`: 100 for the current slide, 0 otherwise. */
    function Opacity(index: nat): (o: nat)
      reads this
      ensures o == 100 || o == 0
      ensures o == 100 <==> index == currentIndex
    {
      if index == currentIndex then 100 else 0
    }

    /** The fully opaque slides: exactly the current one. */
    function OpaqueSlides(): (s: set<nat>)
      requires Valid()
      reads this
      ensures s == {currentIndex}
    {
      set index: nat | index < |Images| && Opacity(index) == 100
    }
  }

  /** Eight ticks bring the slideshow back to the image it started from. */
  lemma EightTicksCycle(start: nat)
    requires start < |Images|
    ensures Advance(start, |Images|, 8) == start
  {
    FullCycle(start, |Images|);
  }
}
