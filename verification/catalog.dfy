/** The fixed table of Messier objects that the matcher scans. */
module Catalog {
  import opened Angles

  /** A catalog tag: "m" followed by the Messier number, so at least two
      characters long and never "-", the tag of the "no match" result. */
  type Tag = s: string | |s| >= 2 witness "m1"

  /** One catalog entry: tag, J2000 right ascension and declination in
      radians, display name and reference link. */
  datatype MObj = MObj(tag: Tag, raRad: real, decRad: real, name: string, link: string)

  /** The table, in its declared order; order decides ties. The values are
      kept exactly as written, including the right ascensions from m85 on,
      which are hour values passed through the degree conversion. */
  const Messier: seq<MObj> := [
    MObj("m1", DegToRad(83.6331), DegToRad(22.0145), "Crab Nebula",
         "https://science.nasa.gov/mission/hubble/science/explore-the-night-sky/hubble-messier-catalog/messier-1/"),
    MObj("m2", DegToRad(323.3625), DegToRad(-0.8233), "Globular Cluster in Aquarius",
         "https://science.nasa.gov/mission/hubble/science/explore-the-night-sky/hubble-messier-catalog/messier-2/"),
    MObj("m3", DegToRad(205.5484), DegToRad(28.3772), "Globular Cluster in Canes Venatici",
         "https://science.nasa.gov/mission/hubble/science/explore-the-night-sky/hubble-messier-catalog/messier-3/"),
    MObj("m4", DegToRad(245.8967), DegToRad(-26.5258), "Globular Cluster in Scorpius",
         "https://science.nasa.gov/mission/hubble/science/explore-the-night-sky/hubble-messier-catalog/messier-4/"),
    MObj("m5", DegToRad(229.6383), DegToRad(2.0819), "Globular Cluster in Serpens",
         "https://science.nasa.gov/mission/hubble/science/explore-the-night-sky/hubble-messier-catalog/messier-5/"),
    MObj("m6", DegToRad(265.0800), DegToRad(-32.2525), "Butterfly Cluster",
         "https://science.nasa.gov/mission/hubble/science/explore-the-night-sky/hubble-messier-catalog/messier-6/"),
    MObj("m7", DegToRad(268.4625), DegToRad(-34.7933), "Ptolemy Cluster",
         "https://science.nasa.gov/mission/hubble/science/explore-the-night-sky/hubble-messier-catalog/messier-7/"),
    MObj("m8", DegToRad(270.9250), DegToRad(-24.3800), "Lagoon Nebula",
         "https://science.nasa.gov/mission/hubble/science/explore-the-night-sky/hubble-messier-catalog/messier-8/"),
    MObj("m9", DegToRad(262.8042), DegToRad(-18.5167), "Globular Cluster in Ophiuchus",
         "https://science.nasa.gov/mission/hubble/science/explore-the-night-sky/hubble-messier-catalog/messier-9/"),
    MObj("m10", DegToRad(254.2875), DegToRad(-4.0997), "Globular Cluster in Ophiuchus",
         "https://science.nasa.gov/mission/hubble/science/explore-the-night-sky/hubble-messier-catalog/messier-10/"),
    MObj("m11", DegToRad(282.7708), DegToRad(-6.2700), "Wild Duck Cluster",
         "https://science.nasa.gov/mission/hubble/science/explore-the-night-sky/hubble-messier-catalog/messier-11/"),
    MObj("m12", DegToRad(251.8083), DegToRad(-1.9483), "Globular Cluster in Ophiuchus",
         "https://science.nasa.gov/mission/hubble/science/explore-the-night-sky/hubble-messier-catalog/messier-12/"),
    MObj("m13", DegToRad(250.4217), DegToRad(36.4611), "Great Hercules Cluster",
         "https://science.nasa.gov/mission/hubble/science/explore-the-night-sky/hubble-messier-catalog/messier-13/"),
    MObj("m14", DegToRad(264.4000), DegToRad(-3.2458), "Globular Cluster in Ophiuchus",
         "https://science.nasa.gov/mission/hubble/science/explore-the-night-sky/hubble-messier-catalog/messier-14/"),
    MObj("m15", DegToRad(322.4938), DegToRad(12.1667), "Pegasus Cluster",
         "https://science.nasa.gov/mission/hubble/science/explore-the-night-sky/hubble-messier-catalog/messier-15/"),
    MObj("m16", DegToRad(274.7000), DegToRad(-13.8067), "Eagle Nebula",
         "https://science.nasa.gov/mission/hubble/science/explore-the-night-sky/hubble-messier-catalog/messier-16/"),
    MObj("m17", DegToRad(275.2000), DegToRad(-16.1750), "Omega Nebula",
         "https://science.nasa.gov/mission/hubble/science/explore-the-night-sky/hubble-messier-catalog/messier-17/"),
    MObj("m18", DegToRad(275.4750), DegToRad(-17.1042), "Open Cluster in Sagittarius",
         "https://science.nasa.gov/mission/hubble/science/explore-the-night-sky/hubble-messier-catalog/messier-18/"),
    MObj("m19", DegToRad(255.6579), DegToRad(-26.2678), "Globular Cluster in Ophiuchus",
         "https://science.nasa.gov/mission/hubble/science/explore-the-night-sky/hubble-messier-catalog/messier-19/"),
    MObj("m20", DegToRad(270.6554), DegToRad(-23.0144), "Trifid Nebula",
         "https://science.nasa.gov/mission/hubble/science/explore-the-night-sky/hubble-messier-catalog/messier-20/"),
    MObj("m21", DegToRad(270.6500), DegToRad(-22.4861), "Open Cluster in Sagittarius",
         "https://science.nasa.gov/mission/hubble/science/explore-the-night-sky/hubble-messier-catalog/messier-21/"),
    MObj("m22", DegToRad(279.1000), DegToRad(-23.9047), "Sagittarius Cluster",
         "https://science.nasa.gov/mission/hubble/science/explore-the-night-sky/hubble-messier-catalog/messier-22/"),
    MObj("m23", DegToRad(269.1500), DegToRad(-19.0167), "Open Cluster in Sagittarius",
         "https://science.nasa.gov/mission/hubble/science/explore-the-night-sky/hubble-messier-catalog/messier-23/"),
    MObj("m24", DegToRad(273.5583), DegToRad(-18.4633), "Sagittarius Star Cloud",
         "https://science.nasa.gov/mission/hubble/science/explore-the-night-sky/hubble-messier-catalog/messier-24/"),
    MObj("m25", DegToRad(279.1000), DegToRad(-19.2500), "Open Cluster in Sagittarius",
         "https://science.nasa.gov/mission/hubble/science/explore-the-night-sky/hubble-messier-catalog/messier-25/"),
    MObj("m26", DegToRad(281.2500), DegToRad(-9.3833), "Open Cluster in Scutum",
         "https://science.nasa.gov/mission/hubble/science/explore-the-night-sky/hubble-messier-catalog/messier-26/"),
    MObj("m27", DegToRad(299.9000), DegToRad(22.7219), "Dumbbell Nebula",
         "https://science.nasa.gov/mission/hubble/science/explore-the-night-sky/hubble-messier-catalog/messier-27/"),
    MObj("m28", DegToRad(276.1375), DegToRad(-24.8697), "Globular Cluster in Sagittarius",
         "https://science.nasa.gov/mission/hubble/science/explore-the-night-sky/hubble-messier-catalog/messier-28/"),
    MObj("m29", DegToRad(305.9833), DegToRad(38.5333), "Open Cluster in Cygnus",
         "https://science.nasa.gov/mission/hubble/science/explore-the-night-sky/hubble-messier-catalog/messier-29/"),
    MObj("m30", DegToRad(325.0925), DegToRad(-23.1797), "Globular Cluster in Capricornus",
         "https://science.nasa.gov/mission/hubble/science/explore-the-night-sky/hubble-messier-catalog/messier-30/"),
    MObj("m31", DegToRad(10.6847), DegToRad(41.2690), "Andromeda Galaxy",
         "https://science.nasa.gov/mission/hubble/science/explore-the-night-sky/hubble-messier-catalog/messier-31/"),
    MObj("m32", DegToRad(10.6743), DegToRad(40.8652), "Dwarf Elliptical Galaxy in Andromeda",
         "https://science.nasa.gov/mission/hubble/science/explore-the-night-sky/hubble-messier-catalog/messier-32/"),
    MObj("m33", DegToRad(23.4621), DegToRad(30.6602), "Triangulum Galaxy",
         "https://science.nasa.gov/mission/hubble/science/explore-the-night-sky/hubble-messier-catalog/messier-33/"),
    MObj("m34", DegToRad(40.5000), DegToRad(42.7833), "Open Cluster in Perseus",
         "https://science.nasa.gov/mission/hubble/science/explore-the-night-sky/hubble-messier-catalog/messier-34/"),
    MObj("m35", DegToRad(92.2250), DegToRad(24.3333), "Open Cluster in Gemini",
         "https://science.nasa.gov/mission/hubble/science/explore-the-night-sky/hubble-messier-catalog/messier-35/"),
    MObj("m36", DegToRad(84.0833), DegToRad(34.1367), "Open Cluster in Auriga",
         "https://science.nasa.gov/mission/hubble/science/explore-the-night-sky/hubble-messier-catalog/messier-36/"),
    MObj("m37", DegToRad(88.0750), DegToRad(32.5533), "Open Cluster in Auriga",
         "https://science.nasa.gov/mission/hubble/science/explore-the-night-sky/hubble-messier-catalog/messier-37/"),
    MObj("m38", DegToRad(82.1883), DegToRad(35.8500), "Open Cluster in Auriga",
         "https://science.nasa.gov/mission/hubble/science/explore-the-night-sky/hubble-messier-catalog/messier-38/"),
    MObj("m39", DegToRad(322.9958), DegToRad(48.4333), "Open Cluster in Cygnus",
         "https://science.nasa.gov/mission/hubble/science/explore-the-night-sky/hubble-messier-catalog/messier-39/"),
    MObj("m40", DegToRad(183.7792), DegToRad(58.0833), "Double Star in Ursa Major",
         "https://science.nasa.gov/mission/hubble/science/explore-the-night-sky/hubble-messier-catalog/messier-40/"),
    MObj("m41", DegToRad(101.5000), DegToRad(-20.7500), "Open Cluster in Canis Major",
         "https://science.nasa.gov/mission/hubble/science/explore-the-night-sky/hubble-messier-catalog/messier-41/"),
    MObj("m42", DegToRad(83.8221), DegToRad(-5.3911), "Orion Nebula",
         "https://science.nasa.gov/mission/hubble/science/explore-the-night-sky/hubble-messier-catalog/messier-42/"),
    MObj("m43", DegToRad(83.8750), DegToRad(-5.2667), "De Mairan’s Nebula",
         "https://science.nasa.gov/mission/hubble/science/explore-the-night-sky/hubble-messier-catalog/messier-43/"),
    MObj("m44", DegToRad(130.0250), DegToRad(19.9833), "Beehive Cluster (Praesepe)",
         "https://science.nasa.gov/mission/hubble/science/explore-the-night-sky/hubble-messier-catalog/messier-44/"),
    MObj("m45", DegToRad(56.7500), DegToRad(24.1167), "Pleiades",
         "https://science.nasa.gov/mission/hubble/science/explore-the-night-sky/hubble-messier-catalog/messier-45/"),
    MObj("m46", DegToRad(114.1500), DegToRad(-14.8167), "Open Cluster in Puppis",
         "https://science.nasa.gov/mission/hubble/science/explore-the-night-sky/hubble-messier-catalog/messier-46/"),
    MObj("m47", DegToRad(114.1500), DegToRad(-14.4833), "Open Cluster in Puppis",
         "https://science.nasa.gov/mission/hubble/science/explore-the-night-sky/hubble-messier-catalog/messier-47/"),
    MObj("m48", DegToRad(123.1500), DegToRad(-5.8000), "Open Cluster in Hydra",
         "https://science.nasa.gov/mission/hubble/science/explore-the-night-sky/hubble-messier-catalog/messier-48/"),
    MObj("m49", DegToRad(187.4458), DegToRad(8.0000), "Elliptical Galaxy in Virgo",
         "https://science.nasa.gov/mission/hubble/science/explore-the-night-sky/hubble-messier-catalog/messier-49/"),
    MObj("m50", DegToRad(105.7333), DegToRad(-8.3333), "Open Cluster in Monoceros",
         "https://science.nasa.gov/mission/hubble/science/explore-the-night-sky/hubble-messier-catalog/messier-50/"),
    MObj("m51", DegToRad(202.4708), DegToRad(47.1953), "Whirlpool Galaxy",
         "https://science.nasa.gov/mission/hubble/science/explore-the-night-sky/hubble-messier-catalog/messier-51/"),
    MObj("m52", DegToRad(351.2000), DegToRad(61.5833), "Open Cluster in Cassiopeia",
         "https://science.nasa.gov/mission/hubble/science/explore-the-night-sky/hubble-messier-catalog/messier-52/"),
    MObj("m53", DegToRad(198.2308), DegToRad(18.1683), "Globular Cluster in Coma Berenices",
         "https://science.nasa.gov/mission/hubble/science/explore-the-night-sky/hubble-messier-catalog/messier-53/"),
    MObj("m54", DegToRad(283.7625), DegToRad(-30.4797), "Globular Cluster in Sagittarius",
         "https://science.nasa.gov/mission/hubble/science/explore-the-night-sky/hubble-messier-catalog/messier-54/"),
    MObj("m55", DegToRad(294.9983), DegToRad(-30.9647), "Globular Cluster in Sagittarius",
         "https://science.nasa.gov/mission/hubble/science/explore-the-night-sky/hubble-messier-catalog/messier-55/"),
    MObj("m56", DegToRad(289.1479), DegToRad(30.1833), "Globular Cluster in Lyra",
         "https://science.nasa.gov/mission/hubble/science/explore-the-night-sky/hubble-messier-catalog/messier-56/"),
    MObj("m57", DegToRad(283.3963), DegToRad(33.0283), "Ring Nebula",
         "https://science.nasa.gov/mission/hubble/science/explore-the-night-sky/hubble-messier-catalog/messier-57/"),
    MObj("m58", DegToRad(189.4300), DegToRad(11.8183), "Spiral Galaxy in Virgo",
         "https://science.nasa.gov/mission/hubble/science/explore-the-night-sky/hubble-messier-catalog/messier-58/"),
    MObj("m59", DegToRad(190.4908), DegToRad(11.6469), "Elliptical Galaxy in Virgo",
         "https://science.nasa.gov/mission/hubble/science/explore-the-night-sky/hubble-messier-catalog/messier-59/"),
    MObj("m60", DegToRad(190.9167), DegToRad(11.5500), "Elliptical Galaxy in Virgo",
         "https://science.nasa.gov/mission/hubble/science/explore-the-night-sky/hubble-messier-catalog/messier-60/"),
    MObj("m61", DegToRad(185.4788), DegToRad(4.4733), "Spiral Galaxy in Virgo",
         "https://science.nasa.gov/mission/hubble/science/explore-the-night-sky/hubble-messier-catalog/messier-61/"),
    MObj("m62", DegToRad(255.3000), DegToRad(-30.1111), "Globular Cluster in Ophiuchus",
         "https://science.nasa.gov/mission/hubble/science/explore-the-night-sky/hubble-messier-catalog/messier-62/"),
    MObj("m63", DegToRad(198.9567), DegToRad(42.0292), "Sunflower Galaxy",
         "https://science.nasa.gov/mission/hubble/science/explore-the-night-sky/hubble-messier-catalog/messier-63/"),
    MObj("m64", DegToRad(194.1829), DegToRad(21.6825), "Black Eye Galaxy",
         "https://science.nasa.gov/mission/hubble/science/explore-the-night-sky/hubble-messier-catalog/messier-64/"),
    MObj("m65", DegToRad(169.7250), DegToRad(13.0925), "Spiral Galaxy in Leo",
         "https://science.nasa.gov/mission/hubble/science/explore-the-night-sky/hubble-messier-catalog/messier-65/"),
    MObj("m66", DegToRad(170.0625), DegToRad(12.9919), "Spiral Galaxy in Leo",
         "https://science.nasa.gov/mission/hubble/science/explore-the-night-sky/hubble-messier-catalog/messier-66/"),
    MObj("m67", DegToRad(132.8250), DegToRad(11.8167), "Open Cluster in Cancer",
         "https://science.nasa.gov/mission/hubble/science/explore-the-night-sky/hubble-messier-catalog/messier-67/"),
    MObj("m68", DegToRad(189.8667), DegToRad(-26.7447), "Globular Cluster in Hydra",
         "https://science.nasa.gov/mission/hubble/science/explore-the-night-sky/hubble-messier-catalog/messier-68/"),
    MObj("m69", DegToRad(277.8463), DegToRad(-32.3483), "Globular Cluster in Sagittarius",
         "https://science.nasa.gov/mission/hubble/science/explore-the-night-sky/hubble-messier-catalog/messier-69/"),
    MObj("m70", DegToRad(280.8033), DegToRad(-32.2922), "Globular Cluster in Sagittarius",
         "https://science.nasa.gov/mission/hubble/science/explore-the-night-sky/hubble-messier-catalog/messier-70/"),
    MObj("m71", DegToRad(298.4433), DegToRad(18.7797), "Globular Cluster in Sagitta",
         "https://science.nasa.gov/mission/hubble/science/explore-the-night-sky/hubble-messier-catalog/messier-71/"),
    MObj("m72", DegToRad(313.3667), DegToRad(-12.5378), "Globular Cluster in Aquarius",
         "https://science.nasa.gov/mission/hubble/science/explore-the-night-sky/hubble-messier-catalog/messier-72/"),
    MObj("m73", DegToRad(314.7500), DegToRad(-12.6333), "Asterism in Aquarius",
         "https://science.nasa.gov/mission/hubble/science/explore-the-night-sky/hubble-messier-catalog/messier-73/"),
    MObj("m74", DegToRad(24.1742), DegToRad(15.7833), "Phantom Galaxy",
         "https://science.nasa.gov/mission/hubble/science/explore-the-night-sky/hubble-messier-catalog/messier-74/"),
    MObj("m75", DegToRad(302.4842), DegToRad(-21.9225), "Globular Cluster in Sagittarius",
         "https://science.nasa.gov/mission/hubble/science/explore-the-night-sky/hubble-messier-catalog/messier-75/"),
    MObj("m76", DegToRad(25.5917), DegToRad(51.5733), "Little Dumbbell Nebula",
         "https://science.nasa.gov/mission/hubble/science/explore-the-night-sky/hubble-messier-catalog/messier-76/"),
    MObj("m77", DegToRad(40.6692), DegToRad(0.0133), "Cetus A Galaxy",
         "https://science.nasa.gov/mission/hubble/science/explore-the-night-sky/hubble-messier-catalog/messier-77/"),
    MObj("m78", DegToRad(86.7000), DegToRad(0.0500), "Diffuse Nebula in Orion",
         "https://science.nasa.gov/mission/hubble/science/explore-the-night-sky/hubble-messier-catalog/messier-78/"),
    MObj("m79", DegToRad(81.0450), DegToRad(-24.5242), "Globular Cluster in Lepus",
         "https://science.nasa.gov/mission/hubble/science/explore-the-night-sky/hubble-messier-catalog/messier-79/"),
    MObj("m80", DegToRad(244.2600), DegToRad(-22.9750), "Globular Cluster in Scorpius",
         "https://science.nasa.gov/mission/hubble/science/explore-the-night-sky/hubble-messier-catalog/messier-80/"),
    MObj("m81", DegToRad(148.8883), DegToRad(69.0653), "Bode’s Galaxy",
         "https://science.nasa.gov/mission/hubble/science/explore-the-night-sky/hubble-messier-catalog/messier-81/"),
    MObj("m82", DegToRad(148.9683), DegToRad(69.6797), "Cigar Galaxy",
         "https://science.nasa.gov/mission/hubble/science/explore-the-night-sky/hubble-messier-catalog/messier-82/"),
    MObj("m83", DegToRad(204.2533), DegToRad(-29.8650), "Southern Pinwheel Galaxy",
         "https://science.nasa.gov/mission/hubble/science/explore-the-night-sky/hubble-messier-catalog/messier-83/"),
    MObj("m84", DegToRad(186.2650), DegToRad(12.8875), "Elliptical Galaxy in Virgo",
         "https://science.nasa.gov/mission/hubble/science/explore-the-night-sky/hubble-messier-catalog/messier-84/"),
    MObj("m85", DegToRad(13.1464), DegToRad(18.1847), "Lenticular Galaxy in Coma Berenices",
         "https://science.nasa.gov/mission/hubble/science/explore-the-night-sky/hubble-messier-catalog/messier-85/"),
    MObj("m86", DegToRad(12.8694), DegToRad(12.9247), "Elliptical Galaxy in Virgo Cluster",
         "https://science.nasa.gov/mission/hubble/science/explore-the-night-sky/hubble-messier-catalog/messier-86/"),
    MObj("m87", DegToRad(12.3911), DegToRad(12.3911), "(Virgo A) – Supermassive Black Hole Galaxy",
         "https://science.nasa.gov/mission/hubble/science/explore-the-night-sky/hubble-messier-catalog/messier-87/"),
    MObj("m88", DegToRad(12.3750), DegToRad(13.1583), "Spiral Galaxy in Coma Berenices",
         "https://science.nasa.gov/mission/hubble/science/explore-the-night-sky/hubble-messier-catalog/messier-88/"),
    MObj("m89", DegToRad(12.3583), DegToRad(12.5572), "Elliptical Galaxy in Virgo Cluster",
         "https://science.nasa.gov/mission/hubble/science/explore-the-night-sky/hubble-messier-catalog/messier-89/"),
    MObj("m90", DegToRad(12.3486), DegToRad(13.1611), "Spiral Galaxy in Virgo Cluster",
         "https://science.nasa.gov/mission/hubble/science/explore-the-night-sky/hubble-messier-catalog/messier-90/"),
    MObj("m91", DegToRad(13.1464), DegToRad(18.1847), "Barred Spiral Galaxy in Coma Berenices",
         "https://science.nasa.gov/mission/hubble/science/explore-the-night-sky/hubble-messier-catalog/messier-91/"),
    MObj("m92", DegToRad(15.0847), DegToRad(43.2222), "Globular Cluster in Hercules",
         "https://science.nasa.gov/mission/hubble/science/explore-the-night-sky/hubble-messier-catalog/messier-92/"),
    MObj("m93", DegToRad(13.6250), DegToRad(-23.8700), "Open Cluster in Puppis",
         "https://science.nasa.gov/mission/hubble/science/explore-the-night-sky/hubble-messier-catalog/messier-93/"),
    MObj("m94", DegToRad(12.8722), DegToRad(41.7222), "Spiral Galaxy in Canes Venatici",
         "https://science.nasa.gov/mission/hubble/science/explore-the-night-sky/hubble-messier-catalog/messier-94/"),
    MObj("m95", DegToRad(10.7000), DegToRad(11.7000), "Lenticular Galaxy in Leo",
         "https://science.nasa.gov/mission/hubble/science/explore-the-night-sky/hubble-messier-catalog/messier-95/"),
    MObj("m96", DegToRad(10.7000), DegToRad(11.7000), "Spiral Galaxy in Leo",
         "https://science.nasa.gov/mission/hubble/science/explore-the-night-sky/hubble-messier-catalog/messier-96/"),
    MObj("m97", DegToRad(11.5000), DegToRad(55.0000), "Planetary Nebula (Owl Nebula)",
         "https://science.nasa.gov/mission/hubble/science/explore-the-night-sky/hubble-messier-catalog/messier-97/"),
    MObj("m98", DegToRad(12.0000), DegToRad(14.0000), "Spiral Galaxy in Coma Berenices",
         "https://science.nasa.gov/mission/hubble/science/explore-the-night-sky/hubble-messier-catalog/messier-98/"),
    MObj("m99", DegToRad(12.0000), DegToRad(14.0000), "Spiral Galaxy in Coma Berenices",
         "https://science.nasa.gov/mission/hubble/science/explore-the-night-sky/hubble-messier-catalog/messier-99/"),
    MObj("m100", DegToRad(12.0000), DegToRad(14.0000), "Spiral Galaxy in Coma Berenices",
         "https://science.nasa.gov/mission/hubble/science/explore-the-night-sky/hubble-messier-catalog/messier-100/"),
    MObj("m101", DegToRad(12.0000), DegToRad(14.0000), "Spiral Galaxy in Ursa Major",
         "https://science.nasa.gov/mission/hubble/science/explore-the-night-sky/hubble-messier-catalog/messier-101/"),
    MObj("m102", DegToRad(12.0000), DegToRad(14.0000), "Lenticular Galaxy in Draco",
         "https://science.nasa.gov/mission/hubble/science/explore-the-night-sky/hubble-messier-catalog/messier-102/"),
    MObj("m103", DegToRad(12.0000), DegToRad(14.0000), "Open Cluster in Cassiopeia",
         "https://science.nasa.gov/mission/hubble/science/explore-the-night-sky/hubble-messier-catalog/messier-103/"),
    MObj("m104", DegToRad(12.6664), DegToRad(-11.6231), "Sombrero Galaxy (Spiral Galaxy in Corvus)",
         "https://science.nasa.gov/mission/hubble/science/explore-the-night-sky/hubble-messier-catalog/messier-104/"),
    MObj("m105", DegToRad(10.7000), DegToRad(11.7000), "Elliptical Galaxy in Leo",
         "https://science.nasa.gov/mission/hubble/science/explore-the-night-sky/hubble-messier-catalog/messier-105/"),
    MObj("m106", DegToRad(12.3369), DegToRad(47.1611), "Spiral Galaxy in Canes Venatici",
         "https://science.nasa.gov/mission/hubble/science/explore-the-night-sky/hubble-messier-catalog/messier-106/"),
    MObj("m107", DegToRad(16.1717), DegToRad(13.1797), "Globular Cluster in Ophiuchus",
         "https://science.nasa.gov/mission/hubble/science/explore-the-night-sky/hubble-messier-catalog/messier-107/"),
    MObj("m108", DegToRad(11.2167), DegToRad(55.5336), "Spiral Galaxy in Ursa Major",
         "https://science.nasa.gov/mission/hubble/science/explore-the-night-sky/hubble-messier-catalog/messier-108/"),
    MObj("m109", DegToRad(11.9825), DegToRad(53.2311), "Barred Spiral Galaxy in Ursa Major",
         "https://science.nasa.gov/mission/hubble/science/explore-the-night-sky/hubble-messier-catalog/messier-109/"),
    MObj("m110", DegToRad(0.6733), DegToRad(41.6850), "Dwarf Elliptical Galaxy in Andromeda",
         "https://science.nasa.gov/mission/hubble/science/explore-the-night-sky/hubble-messier-catalog/messier-110/")
  ]

  /** The table holds 110 entries, the last of them m110. */
  lemma MessierTable()
    ensures |Messier| == 110
    ensures Messier[109].tag == "m110"
  {
  }
}
