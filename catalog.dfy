/**
 * The gallery data of main.js:529-537: seven named galleries, each an ordered
 * list of image paths and a cursor (`currentIndex`) that starts at 0.
 */
module Catalog {

  /** One entry of `galleries`: its images and its rotation cursor. */
  datatype Gallery = Gallery(images: seq<string>, cursor: nat) {
    /** The invariant the registry keeps: a non-empty gallery whose cursor is a valid index. */
    predicate Valid() {
      cursor < |images|
    }
  }

  /** Every gallery of a registry satisfies its invariant. */
  predicate WellFormed(galleries: map<string, Gallery>) {
    forall id :: id in galleries ==> galleries[id].Valid()
  }

  // The images of each gallery, in the order main.js lists them.
  const SunImages: seq<string> := [
    "assets/gallery/S.U.N./1.jpg",
    "assets/gallery/S.U.N./2.jpg",
    "assets/gallery/S.U.N./3.jpg",
    "assets/gallery/S.U.N./4.jpg",
    "assets/gallery/S.U.N./5.jpg",
    "assets/gallery/S.U.N./6.jpg",
    "assets/gallery/S.U.N./7.jpg",
    "assets/gallery/S.U.N./8.JPG"
  ]
  const ManasImages: seq<string> := [
    "assets/gallery/Manas/1.jpeg",
    "assets/gallery/Manas/2.JPG",
    "assets/gallery/Manas/3.jpeg",
    "assets/gallery/Manas/4.JPG",
    "assets/gallery/Manas/5.JPG",
    "assets/gallery/Manas/6.JPG",
    "assets/gallery/Manas/7.JPG"
  ]
  const MicroasisImages: seq<string> := [
    "assets/gallery/Microasis/1.jpg",
    "assets/gallery/Microasis/2.JPG",
    "assets/gallery/Microasis/3.JPG",
    "assets/gallery/Microasis/4.JPG",
    "assets/gallery/Microasis/5.JPG",
    "assets/gallery/Microasis/6.jpg",
    "assets/gallery/Microasis/7.JPG",
    "assets/gallery/Microasis/8.JPG",
    "assets/gallery/Microasis/9.JPG",
    "assets/gallery/Microasis/10.JPG"
  ]
  const IndianImages: seq<string> := [
    "assets/gallery/Indian Summer/1.jpeg",
    "assets/gallery/Indian Summer/2.jpeg",
    "assets/gallery/Indian Summer/3.jpeg",
    "assets/gallery/Indian Summer/4.jpeg",
    "assets/gallery/Indian Summer/5.JPG",
    "assets/gallery/Indian Summer/6.jpeg",
    "assets/gallery/Indian Summer/7.jpeg",
    "assets/gallery/Indian Summer/8.jpeg",
    "assets/gallery/Indian Summer/9.jpeg",
    "assets/gallery/Indian Summer/10.jpeg",
    "assets/gallery/Indian Summer/10.1.jpeg",
    "assets/gallery/Indian Summer/11.gif"
  ]
  const MandulaImages: seq<string> := [
    "assets/gallery/Mandula/1.jpeg",
    "assets/gallery/Mandula/2.jpeg",
    "assets/gallery/Mandula/7.JPG",
    "assets/gallery/Mandula/8.jpeg"
  ]
  const AdventImages: seq<string> := [
    "assets/gallery/Advent/1.jpeg",
    "assets/gallery/Advent/2.JPG",
    "assets/gallery/Advent/3.JPG",
    "assets/gallery/Advent/4.JPG"
  ]
  const GalgagutaImages: seq<string> := [
    "assets/gallery/Galgaguta/1.gif",
    "assets/gallery/Galgaguta/2.JPG",
    "assets/gallery/Galgaguta/3.JPG",
    "assets/gallery/Galgaguta/5.JPG",
    "assets/gallery/Galgaguta/6.JPG",
    "assets/gallery/Galgaguta/7.1.JPG",
    "assets/gallery/Galgaguta/8.JPG",
    "assets/gallery/Galgaguta/9.JPG",
    "assets/gallery/Galgaguta/10.JPG",
    "assets/gallery/Galgaguta/11.JPG",
    "assets/gallery/Galgaguta/12.JPG",
    "assets/gallery/Galgaguta/13.JPG",
    "assets/gallery/Galgaguta/14.JPG",
    "assets/gallery/Galgaguta/15.JPG",
    "assets/gallery/Galgaguta/16.JPG",
    "assets/gallery/Galgaguta/17.JPG",
    "assets/gallery/Galgaguta/18.JPG",
    "assets/gallery/Galgaguta/19.JPG",
    "assets/gallery/Galgaguta/20.JPG",
    "assets/gallery/Galgaguta/21.JPG",
    "assets/gallery/Galgaguta/22.JPG",
    "assets/gallery/Galgaguta/23.JPG",
    "assets/gallery/Galgaguta/24.JPG",
    "assets/gallery/Galgaguta/25.JPG",
    "assets/gallery/Galgaguta/26.JPG"
  ]

  /** The registry as the page starts with it: every cursor at 0. */
  function Galleries(): map<string, Gallery> {
    map[
      "sun" := Gallery(SunImages, 0),
      "manas" := Gallery(ManasImages, 0),
      "microasis" := Gallery(MicroasisImages, 0),
      "indian" := Gallery(IndianImages, 0),
      "mandula" := Gallery(MandulaImages, 0),
      "advent" := Gallery(AdventImages, 0),
      "galgaguta" := Gallery(GalgagutaImages, 0)
    ]
  }

  /** The initial registry satisfies the invariant: no gallery is empty. */
  lemma GalleriesWellFormed()
    ensures WellFormed(Galleries())
  {
  }

  /** The sizes of the galleries, as main.js lists them. */
  lemma GallerySizes()
    ensures |Galleries()["sun"].images| == 8
    ensures |Galleries()["manas"].images| == 7
    ensures |Galleries()["microasis"].images| == 10
    ensures |Galleries()["indian"].images| == 12
    ensures |Galleries()["mandula"].images| == 4
    ensures |Galleries()["advent"].images| == 4
    ensures |Galleries()["galgaguta"].images| == 25
  {
  }
}
